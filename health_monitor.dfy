/** The health strip (components/HealthMonitor.tsx): each source's signal,
    temperature and battery, classified into green, yellow and red against
    fixed thresholds, with a missing reading shown as zero. */
module Health {
  import opened Types

  datatype Metric = Temperature | Signal | Battery
  datatype Level = Green | Yellow | Red

  /** Red when critical, yellow when degraded, green otherwise. Temperature
      is bad when high; signal and battery are bad when low. */
  function Classify(m: Metric, value: real): Level {
    if (m == Temperature && value > 45.0) || (m == Signal && value < 50.0) || (m == Battery && value < 20.0) then Red
    else if (m == Temperature && value > 40.0) || (m == Signal && value < 75.0) || (m == Battery && value < 50.0) then Yellow
    else Green
  }

  /** The band each level covers, per metric, both directions. */
  lemma ClassifyBands(value: real)
    ensures Classify(Temperature, value) == Red <==> value > 45.0
    ensures Classify(Temperature, value) == Yellow <==> 40.0 < value <= 45.0
    ensures Classify(Temperature, value) == Green <==> value <= 40.0
    ensures Classify(Signal, value) == Red <==> value < 50.0
    ensures Classify(Signal, value) == Yellow <==> 50.0 <= value < 75.0
    ensures Classify(Signal, value) == Green <==> value >= 75.0
    ensures Classify(Battery, value) == Red <==> value < 20.0
    ensures Classify(Battery, value) == Yellow <==> 20.0 <= value < 50.0
    ensures Classify(Battery, value) == Green <==> value >= 50.0
  {
  }

  /** Severity order: green below yellow below red. */
  function Severity(l: Level): (r: nat)
    ensures r <= 2 && (r == 0 <==> l == Green) && (r == 2 <==> l == Red)
  {
    match l
    case Green => 0
    case Yellow => 1
    case Red => 2
  }

  /** A hotter source is never shown healthier; a weaker signal or a lower
      battery is never shown healthier either. */
  lemma ClassifyMonotone(m: Metric, better: real, worse: real)
    requires if m == Temperature then worse >= better else worse <= better
    ensures Severity(Classify(m, better)) <= Severity(Classify(m, worse))
  {
  }

  /** The unit printed after the value. */
  function Suffix(m: Metric): (r: string)
    ensures r == (if m == Temperature then "°C" else "%")
  {
    if m == Temperature then "°C" else "%"
  }

  /** `source.health?.<field> ?? 0`. */
  function Reading(s: MediaSource, m: Metric): (r: real)
    ensures s.health.None? ==> r == 0.0
    ensures s.health.Some? ==> r == (match m
      case Temperature => s.health.value.temperature
      case Signal => s.health.value.signal
      case Battery => s.health.value.battery)
  {
    if s.health.None? then 0.0
    else match m
      case Temperature => s.health.value.temperature
      case Signal => s.health.value.signal
      case Battery => s.health.value.battery
  }

  /** A source without health telemetry shows red for signal and battery
      and green for temperature. */
  lemma MissingHealthLevels(s: MediaSource)
    requires s.health.None?
    ensures Classify(Signal, Reading(s, Signal)) == Red
    ensures Classify(Battery, Reading(s, Battery)) == Red
    ensures Classify(Temperature, Reading(s, Temperature)) == Green
  {
  }
}
