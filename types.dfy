/** The shared vocabulary of the production console (types.ts): closed
    enumerations become datatypes, each with the wire string the UI shows and a
    parser back from it; records become datatypes with the same fields.
    Optional fields (`stats?`, `health?`, `number | null`) become `Option`. */
module Types {

  datatype Option<+T> = None | Some(value: T)

  /** SportType: a closed set of four sports. */
  datatype SportType = Football | Basketball | Baseball | Tennis

  const AllSports: seq<SportType> := [Football, Basketball, Baseball, Tennis]

  function SportName(s: SportType): string {
    match s
    case Football => "Football"
    case Basketball => "Basketball"
    case Baseball => "Baseball"
    case Tennis => "Tennis"
  }

  /** The sport whose enum value is `name`, if any. */
  function ParseSport(name: string): (r: Option<SportType>)
    ensures forall s :: r == Some(s) <==> SportName(s) == name
  {
    if name == "Football" then Some(Football)
    else if name == "Basketball" then Some(Basketball)
    else if name == "Baseball" then Some(Baseball)
    else if name == "Tennis" then Some(Tennis)
    else None
  }

  /** SourceType: the capture protocols a media source can use. */
  datatype SourceType = NdiHx | Srt | RtmpLocal | Uvc | DjiDrone | GoPro

  function SourceTypeName(t: SourceType): string {
    match t
    case NdiHx => "NDI|HX"
    case Srt => "SRT"
    case RtmpLocal => "RTMP"
    case Uvc => "USB/UVC"
    case DjiDrone => "DJI"
    case GoPro => "GoPro"
  }

  /** TransitionType: exactly 'CUT', 'FADE' or 'WIPE'. */
  datatype TransitionType = Cut | Fade | Wipe

  function TransitionName(t: TransitionType): string {
    match t
    case Cut => "CUT"
    case Fade => "FADE"
    case Wipe => "WIPE"
  }

  function ParseTransition(name: string): (r: Option<TransitionType>)
    ensures forall t :: r == Some(t) <==> TransitionName(t) == name
  {
    if name == "CUT" then Some(Cut)
    else if name == "FADE" then Some(Fade)
    else if name == "WIPE" then Some(Wipe)
    else None
  }

  /** MediaSource.status: 'connected' | 'disconnected' | 'connecting'. */
  datatype SourceStatus = Connected | Disconnected | Connecting

  function StatusName(s: SourceStatus): string {
    match s
    case Connected => "connected"
    case Disconnected => "disconnected"
    case Connecting => "connecting"
  }

  function ParseStatus(name: string): (r: Option<SourceStatus>)
    ensures forall s :: r == Some(s) <==> StatusName(s) == name
  {
    if name == "connected" then Some(Connected)
    else if name == "disconnected" then Some(Disconnected)
    else if name == "connecting" then Some(Connecting)
    else None
  }

  /** ReplayEvent.type: 'GOAL' | 'FOUL' | 'MANUAL'. */
  datatype ReplayType = Goal | Foul | Manual

  function ReplayTypeName(t: ReplayType): string {
    match t
    case Goal => "GOAL"
    case Foul => "FOUL"
    case Manual => "MANUAL"
  }

  function ParseReplayType(name: string): (r: Option<ReplayType>)
    ensures forall t :: r == Some(t) <==> ReplayTypeName(t) == name
  {
    if name == "GOAL" then Some(Goal)
    else if name == "FOUL" then Some(Foul)
    else if name == "MANUAL" then Some(Manual)
    else None
  }

  /** A pan-tilt-zoom head; `activePreset` is a preset number or null. */
  datatype PtzState = PtzState(pan: real, tilt: real, zoom: real, speed: real, activePreset: Option<int>)

  /** Battery and signal are percentages, temperature is in degrees Celsius. */
  datatype SourceHealth = SourceHealth(battery: real, temperature: real, signal: real)

  /** The documented ranges of a health reading: battery and signal in 0..100. */
  predicate HealthInRange(h: SourceHealth) {
    0.0 <= h.battery <= 100.0 && 0.0 <= h.signal <= 100.0
  }

  datatype ConnectivityStats = ConnectivityStats(
    ip: Option<string>,
    jitter: seq<real>,
    packetLoss: real,
    rtt: real,
    bufferUsage: real,
    syncDelay: int)

  datatype MediaSource = MediaSource(
    id: string,
    name: string,
    sourceType: SourceType,
    resolution: string,
    fps: int,
    bitrate: real,
    latency: int,
    status: SourceStatus,
    stats: Option<ConnectivityStats>,
    health: Option<SourceHealth>,
    ptzState: Option<PtzState>)

  datatype Team = Team(name: string, score: int, color: string, fouls: int)

  /** One live match: two teams, period, elapsed clock and the clock flag. */
  datatype MatchState = MatchState(
    sport: SportType,
    teamA: Team,
    teamB: Team,
    period: int,
    timerMs: int,
    isTimerRunning: bool,
    isGameOver: bool)

  datatype ReplayEvent = ReplayEvent(
    id: string,
    timestamp: string,
    eventType: ReplayType,
    sourceId: string,
    durationMs: int)

  datatype AudioChannel = AudioChannel(
    id: string,
    name: string,
    level: real,
    isMuted: bool,
    isLocked: bool,
    followVideo: bool,
    delayMs: int,
    peakDb: real)
}
