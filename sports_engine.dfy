/** The match engine of the sports control screen
    (components/SportsEngineControl.tsx): the scoreboard record, the
    one-second clock, the `MM:SS` formatter and the replay feed capped at
    eight entries, newest first. */
module SportsEngine {
  import opened Types
  import Text
  import BoundedLog

  /** `[newEvent, ...prev].slice(0, 8)`. */
  const ReplayCapacity: nat := 8

  /** The interval adds this much to `timerMs` once per second. */
  const TickMs: int := 1000

  const GoalTeamA: string := "GOAL TEAM A"
  const GoalTeamB: string := "GOAL TEAM B"
  const ManualMark: string := "MANUAL_MARK"
  const YellowCard: string := "YELLOW_CARD"
  const RedCard: string := "RED_CARD"
  const VarReview: string := "VAR_REVIEW"
  const InjuryTime: string := "INJURY_TIME"

  datatype Side = A | B

  function Other(side: Side): Side {
    if side == A then B else A
  }

  function GoalTag(side: Side): string {
    if side == A then GoalTeamA else GoalTeamB
  }

  /** One entry of the replay feed, `{ id, time, type }`; the id is the
      caller-supplied `Date.now()` value. */
  datatype LogEntry = LogEntry(id: int, time: string, tag: string)

  /** The match record and the replay feed, as the component holds them. */
  datatype Engine = Engine(matchState: MatchState, replayEvents: seq<LogEntry>)

  const InitialMatch: MatchState := MatchState(
    Football,
    Team("VALORANT ACADEMY", 0, "#ff0040", 0),
    Team("CYBER TITANS", 0, "#00e5ff", 0),
    1, 0, false, false)

  /** What every reachable engine state satisfies: the clock never runs
      backwards from zero, no score is negative, the feed is within capacity. */
  predicate ValidEngine(e: Engine) {
    e.matchState.timerMs >= 0
    && e.matchState.teamA.score >= 0
    && e.matchState.teamB.score >= 0
    && |e.replayEvents| <= ReplayCapacity
  }

  // ---------------------------------------------------------------------
  // formatTime

  /** `n.toString().padStart(2, '0')`. */
  function TwoDigits(n: nat): (s: string)
    ensures 2 <= |s| && Text.AllDigits(s)
  {
    Text.PadStart(Text.Decimal(n), 2, '0')
  }

  /** The padded field reads back as the number, and it is exactly two
      characters wide below 100. */
  lemma TwoDigitsValue(n: nat)
    ensures Text.DigitsValue(TwoDigits(n)) == n
    ensures n < 100 <==> |TwoDigits(n)| == 2
  {
    var d := Text.Decimal(n);
    Text.DecimalRoundTrip(n);
    Text.LeadingZerosIgnored(if |d| >= 2 then 0 else 2 - |d|, d);
    if |d| >= 2 {
      assert Text.Repeat('0', 0) + d == d;
    }
    assert n >= 100 ==> Text.Decimal(n / 10) != [] && |d| >= 3;
    assert n < 100 ==> |d| <= 2;
  }

  /** formatTime: whole minutes, a colon, then the whole seconds within the
      minute, each padded to two digits. Minutes do not wrap at the hour. */
  function FormatTime(ms: nat): (r: string)
    ensures |r| >= 5 && r[|r| - 3] == ':'
  {
    TwoDigits(ms / 60000) + ":" + TwoDigits((ms % 60000) / 1000)
  }

  /** The clock text ends in the two-digit seconds field. */
  lemma FormatTimeEndsInSeconds(ms: nat)
    ensures var r := FormatTime(ms); r[|r| - 2..] == TwoDigits((ms % 60000) / 1000)
  {
    var a, b := TwoDigits(ms / 60000), TwoDigits((ms % 60000) / 1000);
    TwoDigitsValue((ms % 60000) / 1000);
    assert FormatTime(ms) == (a + ":") + b;
  }

  /** Reads a `minutes:seconds` string back into its two numbers. */
  function ParseClock(s: string): Option<(nat, nat)> {
    var k := Text.IndexOf(s, ':');
    if k == |s| then None
    else
      var mins, secs := s[..k], s[k + 1..];
      if mins != [] && secs != [] && Text.AllDigits(mins) && Text.AllDigits(secs)
      then Some((Text.DigitsValue(mins), Text.DigitsValue(secs)))
      else None
  }

  /** Two digit fields joined by a colon parse back into their values. */
  lemma ParseJoined(mins: string, secs: string)
    requires mins != [] && secs != [] && Text.AllDigits(mins) && Text.AllDigits(secs)
    ensures ParseClock(mins + ":" + secs) == Some((Text.DigitsValue(mins), Text.DigitsValue(secs)))
  {
    var s := mins + ":" + secs;
    assert s[|mins|] == ':';
    var k := Text.IndexOf(s, ':');
    assert s[..k] == mins;
    assert s[k + 1..] == secs;
  }

  /** The display carries exactly floor(ms / 60000) minutes and
      floor((ms mod 60000) / 1000) seconds, and the seconds are below 60. */
  lemma FormatTimeRoundTrip(ms: nat)
    ensures ParseClock(FormatTime(ms)) == Some((ms / 60000, (ms % 60000) / 1000))
    ensures (ms % 60000) / 1000 < 60
  {
    TwoDigitsValue(ms / 60000);
    TwoDigitsValue((ms % 60000) / 1000);
    ParseJoined(TwoDigits(ms / 60000), TwoDigits((ms % 60000) / 1000));
  }

  /** Below 100 the padded field is exactly two digits: tens, then units. */
  lemma TwoDigitsBelowHundred(n: nat)
    requires n < 100
    ensures TwoDigits(n) == [Text.DigitChar(n / 10), Text.DigitChar(n % 10)]
  {
    if n >= 10 {
      assert Text.Decimal(n / 10) == [Text.DigitChar(n / 10)];
    }
  }

  lemma MinutesAndSeconds(ms: nat, mins: nat, secs: nat)
    requires secs < 60 && ms == 60000 * mins + 1000 * secs
    ensures ms / 60000 == mins && (ms % 60000) / 1000 == secs
  {
    assert ms % 60000 == 1000 * secs;
  }

  lemma JoinFields(a: string, b: string)
    requires |a| == 2 && |b| == 2
    ensures a + ":" + b == [a[0], a[1], ':', b[0], b[1]]
  {
  }

  lemma FormatTimeReading(ms: nat, mins: nat, secs: nat)
    requires mins < 100 && secs < 60 && ms == 60000 * mins + 1000 * secs
    ensures FormatTime(ms) == [Text.DigitChar(mins / 10), Text.DigitChar(mins % 10), ':',
                               Text.DigitChar(secs / 10), Text.DigitChar(secs % 10)]
  {
    MinutesAndSeconds(ms, mins, secs);
    var a, b := TwoDigits(mins), TwoDigits(secs);
    assert FormatTime(ms) == a + ":" + b;
    TwoDigitsBelowHundred(mins);
    TwoDigitsBelowHundred(secs);
    JoinFields(a, b);
  }

  /** Four sample readings, one hour included. */
  lemma FormatTimeExamples()
    ensures FormatTime(0) == "00:00"
    ensures FormatTime(61000) == "01:01"
    ensures FormatTime(3599000) == "59:59"
    ensures FormatTime(3600000) == "60:00"
  {
    FormatTimeReading(0, 0, 0);
    FormatTimeReading(61000, 1, 1);
    FormatTimeReading(3599000, 59, 59);
    FormatTimeReading(3600000, 60, 0);
  }

  // ---------------------------------------------------------------------
  // Score, replay feed, clock, sport

  function TeamOf(m: MatchState, side: Side): Team {
    if side == A then m.teamA else m.teamB
  }

  /** handleScore's update of the match record: the chosen team's score
      becomes max(0, old + increment); nothing else changes. */
  function ScoreUpdate(m: MatchState, side: Side, increment: int): (r: MatchState)
    ensures TeamOf(r, side).score >= 0
    ensures TeamOf(m, side).score + increment >= 0 ==> TeamOf(r, side).score == TeamOf(m, side).score + increment
    ensures TeamOf(m, side).score + increment < 0 ==> TeamOf(r, side).score == 0
    ensures TeamOf(r, side) == TeamOf(m, side).(score := TeamOf(r, side).score)
    ensures TeamOf(r, Other(side)) == TeamOf(m, Other(side))
    ensures r.sport == m.sport && r.period == m.period && r.timerMs == m.timerMs
    ensures r.isTimerRunning == m.isTimerRunning && r.isGameOver == m.isGameOver
  {
    var t := TeamOf(m, side);
    var score := if t.score + increment > 0 then t.score + increment else 0;
    if side == A then m.(teamA := t.(score := score)) else m.(teamB := t.(score := score))
  }

  /** triggerReplay: a new entry stamped with the formatted clock goes in
      front of the feed, which keeps at most eight entries. */
  function MarkReplay(log: seq<LogEntry>, tag: string, id: int, timerMs: nat): (r: seq<LogEntry>)
    ensures |r| == BoundedLog.Min(|log| + 1, ReplayCapacity)
    ensures r[0] == LogEntry(id, FormatTime(timerMs), tag)
    ensures r[1..] == log[..BoundedLog.Min(|log|, ReplayCapacity - 1)]
  {
    BoundedLog.PushFrontKeepsPrefix(log, LogEntry(id, FormatTime(timerMs), tag), ReplayCapacity);
    BoundedLog.PushFront(log, LogEntry(id, FormatTime(timerMs), tag), ReplayCapacity)
  }

  /** handleScore as a whole: the score update, and a `GOAL TEAM A/B` entry
      exactly when the increment is positive. */
  function Scored(e: Engine, side: Side, increment: int, id: int): (r: Engine)
    requires e.matchState.timerMs >= 0
    ensures r.matchState == ScoreUpdate(e.matchState, side, increment)
    ensures increment > 0 ==> r.replayEvents == MarkReplay(e.replayEvents, GoalTag(side), id, e.matchState.timerMs)
    ensures increment <= 0 ==> r.replayEvents == e.replayEvents
  {
    Engine(
      ScoreUpdate(e.matchState, side, increment),
      if increment > 0 then MarkReplay(e.replayEvents, GoalTag(side), id, e.matchState.timerMs)
      else e.replayEvents)
  }

  /** One firing of the one-second interval, which exists only while the
      clock runs. */
  function ClockTick(m: MatchState): (r: MatchState)
    ensures m.isTimerRunning ==> r.timerMs == m.timerMs + TickMs
    ensures !m.isTimerRunning ==> r == m
    ensures r == m.(timerMs := r.timerMs)
  {
    if m.isTimerRunning then m.(timerMs := m.timerMs + TickMs) else m
  }

  /** The START/PAUSE CLOCK button: flips the flag and nothing else. */
  function ClockToggled(m: MatchState): (r: MatchState)
    ensures r.isTimerRunning != m.isTimerRunning
    ensures r.teamA == m.teamA && r.teamB == m.teamB && r.sport == m.sport
    ensures r.timerMs == m.timerMs && r.period == m.period && r.isGameOver == m.isGameOver
  {
    m.(isTimerRunning := !m.isTimerRunning)
  }

  /** A sport button: replaces the sport; score, timer and period stay. */
  function WithSport(m: MatchState, s: SportType): (r: MatchState)
    ensures r.sport == s
    ensures r.teamA == m.teamA && r.teamB == m.teamB && r.timerMs == m.timerMs
    ensures r.period == m.period && r.isTimerRunning == m.isTimerRunning && r.isGameOver == m.isGameOver
  {
    m.(sport := s)
  }

  /** The replay card title: `type.replace('_', ' ')`, first underscore only. */
  function EventLabel(tag: string): string {
    Text.ReplaceFirst(tag, '_', ' ')
  }

  /** With its first underscore at `k`, the label is the tag with that one
      character turned into a space: later underscores stay. */
  lemma EventLabelSplitsAtFirst(tag: string, k: nat)
    requires Text.FirstOccurrence(tag, k, '_')
    ensures EventLabel(tag) == tag[..k] + " " + tag[k + 1..]
  {
    Text.ReplaceFirstAt(tag, k, '_', ' ');
  }

  /** A tag without underscore is its own label. */
  lemma EventLabelPlain(tag: string)
    requires '_' !in tag
    ensures EventLabel(tag) == tag
  {
  }

  // ---------------------------------------------------------------------
  // Runs of commands

  /** The engine keeps its invariant under every command. */
  lemma CommandsPreserveValid(e: Engine, side: Side, increment: int, id: int, tag: string, s: SportType)
    requires ValidEngine(e)
    ensures ValidEngine(Scored(e, side, increment, id))
    ensures ValidEngine(e.(replayEvents := MarkReplay(e.replayEvents, tag, id, e.matchState.timerMs)))
    ensures ValidEngine(e.(matchState := ClockTick(e.matchState)))
    ensures ValidEngine(e.(matchState := ClockToggled(e.matchState)))
    ensures ValidEngine(e.(matchState := WithSport(e.matchState, s)))
  {
    var r := Scored(e, side, increment, id);
    assert TeamOf(r.matchState, side).score >= 0;
    assert TeamOf(r.matchState, Other(side)) == TeamOf(e.matchState, Other(side));
    assert r.matchState.teamA == TeamOf(r.matchState, A) && r.matchState.teamB == TeamOf(r.matchState, B);
  }

  function CountPositive(incs: seq<int>): nat {
    if incs == [] then 0 else (if incs[0] > 0 then 1 else 0) + CountPositive(incs[1..])
  }

  /** Presses of one team's score buttons in a row; `ids[i]` is the clock
      value `Date.now()` gives the i-th press. */
  function ScoreRun(e: Engine, side: Side, incs: seq<int>, ids: seq<int>): Engine
    requires ValidEngine(e)
    requires |ids| == |incs|
    decreases |incs|
  {
    if incs == [] then e
    else
      CommandsPreserveValid(e, side, incs[0], ids[0], "", e.matchState.sport);
      ScoreRun(Scored(e, side, incs[0], ids[0]), side, incs[1..], ids[1..])
  }

  /** Any run of presses keeps the engine valid: no score is negative. */
  lemma {:induction false} ScoreRunValid(e: Engine, side: Side, incs: seq<int>, ids: seq<int>)
    requires ValidEngine(e)
    requires |ids| == |incs|
    ensures ValidEngine(ScoreRun(e, side, incs, ids))
    decreases |incs|
  {
    if incs != [] {
      ScoreRunUnfold(e, side, incs, ids);
      ScoreRunValid(Scored(e, side, incs[0], ids[0]), side, incs[1..], ids[1..]);
    }
  }

  /** After any run of presses the feed has grown by one entry per positive
      press, up to its capacity. */
  lemma {:induction false} ScoreRunLog(e: Engine, side: Side, incs: seq<int>, ids: seq<int>)
    requires ValidEngine(e)
    requires |ids| == |incs|
    ensures |ScoreRun(e, side, incs, ids).replayEvents| == BoundedLog.Min(|e.replayEvents| + CountPositive(incs), ReplayCapacity)
    decreases |incs|
  {
    if incs != [] {
      var e1 := Scored(e, side, incs[0], ids[0]);
      ScoreRunUnfold(e, side, incs, ids);
      var step := if incs[0] > 0 then 1 else 0;
      ScoredLogLength(e, side, incs[0], ids[0]);
      assert CountPositive(incs) == step + CountPositive(incs[1..]);
      ScoreRunLog(e1, side, incs[1..], ids[1..]);
      CapAbsorbs(|e.replayEvents|, step, CountPositive(incs[1..]), ReplayCapacity);
    }
  }

  lemma ScoreRunUnfold(e: Engine, side: Side, incs: seq<int>, ids: seq<int>)
    requires ValidEngine(e) && |ids| == |incs| && incs != []
    ensures ValidEngine(Scored(e, side, incs[0], ids[0]))
    ensures ScoreRun(e, side, incs, ids) == ScoreRun(Scored(e, side, incs[0], ids[0]), side, incs[1..], ids[1..])
  {
    CommandsPreserveValid(e, side, incs[0], ids[0], "", e.matchState.sport);
  }

  /** One press adds one entry for a goal, up to the capacity. */
  lemma ScoredLogLength(e: Engine, side: Side, increment: int, id: int)
    requires ValidEngine(e)
    ensures |Scored(e, side, increment, id).replayEvents| ==
      BoundedLog.Min(|e.replayEvents| + (if increment > 0 then 1 else 0), ReplayCapacity)
  {
  }

  lemma CapAbsorbs(a: nat, s: nat, c: nat, cap: nat)
    ensures BoundedLog.Min(BoundedLog.Min(a + s, cap) + c, cap) == BoundedLog.Min(a + s + c, cap)
  {
  }

  /** Four goals for team A and then a -10: the score is clamped at 0 and
      the feed holds the four goal entries only. */
  lemma FourGoalsThenMinusTen(ids: seq<int>)
    requires |ids| == 5
    ensures ScoreRun(Engine(InitialMatch, []), A, [1, 1, 1, 1, -10], ids).matchState.teamA.score == 0
    ensures |ScoreRun(Engine(InitialMatch, []), A, [1, 1, 1, 1, -10], ids).replayEvents| == 4
  {
    var incs := [1, 1, 1, 1, -10];
    ScoreRunLog(Engine(InitialMatch, []), A, incs, ids);
    assert CountPositive(incs[4..]) == 0;
    assert CountPositive(incs[3..]) == 1;
    assert CountPositive(incs[2..]) == 2;
    assert CountPositive(incs[1..]) == 3;
  }

  /** What the clock sees: a second passing, or a press of the clock button. */
  datatype ClockInput = Second | Press

  function RunClock(m: MatchState, inputs: seq<ClockInput>): MatchState
    decreases |inputs|
  {
    if inputs == [] then m
    else RunClock(if inputs[0] == Second then ClockTick(m) else ClockToggled(m), inputs[1..])
  }

  function Seconds(n: nat): (r: seq<ClockInput>)
    ensures |r| == n && forall i :: 0 <= i < n ==> r[i] == Second
  {
    seq(n, _ => Second)
  }

  lemma {:induction false} RunClockAppend(m: MatchState, a: seq<ClockInput>, b: seq<ClockInput>)
    ensures RunClock(m, a + b) == RunClock(RunClock(m, a), b)
    decreases |a|
  {
    if a != [] {
      var next := if a[0] == Second then ClockTick(m) else ClockToggled(m);
      assert (a + b)[0] == a[0];
      assert (a + b)[1..] == a[1..] + b;
      assert RunClock(m, a + b) == RunClock(next, a[1..] + b);
      assert RunClock(m, a) == RunClock(next, a[1..]);
      RunClockAppend(next, a[1..], b);
    } else {
      assert a + b == b;
    }
  }

  /** While the clock runs, n seconds add exactly n * 1000 ms and change
      nothing else. */
  lemma {:induction false} RunningSeconds(m: MatchState, n: nat)
    requires m.isTimerRunning
    ensures RunClock(m, Seconds(n)) == m.(timerMs := m.timerMs + TickMs * n)
    decreases n
  {
    if n > 0 {
      assert Seconds(n)[1..] == Seconds(n - 1);
      RunningSeconds(ClockTick(m), n - 1);
    }
  }

  /** While the clock is paused, seconds pass without effect. */
  lemma {:induction false} PausedSeconds(m: MatchState, n: nat)
    requires !m.isTimerRunning
    ensures RunClock(m, Seconds(n)) == m
    decreases n
  {
    if n > 0 {
      assert Seconds(n)[1..] == Seconds(n - 1);
      PausedSeconds(m, n - 1);
    }
  }

  /** Start the clock, let three seconds pass, pause it: however long it then
      stays paused, exactly 3000 ms were added. */
  lemma StartThreeSecondsPause(m: MatchState, k: nat)
    requires !m.isTimerRunning
    ensures RunClock(m, [Press] + Seconds(3) + [Press] + Seconds(k)).timerMs == m.timerMs + 3000
  {
    var started := ClockToggled(m);
    RunClockAppend(m, [Press] + Seconds(3) + [Press], Seconds(k));
    RunClockAppend(m, [Press] + Seconds(3), [Press]);
    RunClockAppend(m, [Press], Seconds(3));
    assert RunClock(m, [Press]) == started by {
      assert RunClock(started, []) == started;
    }
    RunningSeconds(started, 3);
    var after := started.(timerMs := m.timerMs + 3000);
    assert RunClock(after, [Press]) == ClockToggled(after) by {
      assert [Press][1..] == [];
    }
    PausedSeconds(ClockToggled(after), k);
  }

  // ---------------------------------------------------------------------
  // The component

  /** The component's state: the `match` record and `replayEvents` list. */
  class SportsEngineControl {
    var matchState: MatchState
    var replayEvents: seq<LogEntry>

    ghost predicate Valid()
      reads this
    {
      ValidEngine(State())
    }

    function State(): Engine
      reads this
    {
      Engine(matchState, replayEvents)
    }

    constructor ()
      ensures Valid()
      ensures matchState == InitialMatch && replayEvents == []
    {
      matchState := InitialMatch;
      replayEvents := [];
    }

    /** The `+` and `-` buttons of either team. */
    method HandleScore(team: Side, increment: int, now: int)
      requires Valid()
      modifies this
      ensures Valid()
      ensures State() == Scored(old(State()), team, increment, now)
    {
      CommandsPreserveValid(State(), team, increment, now, "", matchState.sport);
      var clock := matchState.timerMs;
      matchState := ScoreUpdate(matchState, team, increment);
      if increment > 0 {
        replayEvents := MarkReplay(replayEvents, GoalTag(team), now, clock);
      }
    }

    /** MARK REPLAY and the technical trigger buttons. */
    method TriggerReplay(tag: string, now: int)
      requires Valid()
      modifies this
      ensures Valid()
      ensures matchState == old(matchState)
      ensures replayEvents == MarkReplay(old(replayEvents), tag, now, old(matchState).timerMs)
    {
      replayEvents := MarkReplay(replayEvents, tag, now, matchState.timerMs);
    }

    /** One firing of the one-second interval. */
    method Tick()
      requires Valid()
      modifies this
      ensures Valid()
      ensures matchState == ClockTick(old(matchState)) && replayEvents == old(replayEvents)
    {
      if matchState.isTimerRunning {
        matchState := matchState.(timerMs := matchState.timerMs + TickMs);
      }
    }

    method ToggleClock()
      requires Valid()
      modifies this
      ensures Valid()
      ensures matchState == ClockToggled(old(matchState)) && replayEvents == old(replayEvents)
    {
      matchState := matchState.(isTimerRunning := !matchState.isTimerRunning);
    }

    method SelectSport(s: SportType)
      requires Valid()
      modifies this
      ensures Valid()
      ensures matchState == WithSport(old(matchState), s) && replayEvents == old(replayEvents)
    {
      matchState := matchState.(sport := s);
    }
  }
}
