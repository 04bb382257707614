/** The vocabulary of the splash screen's boot sequence (splash/BootState.kt):
    the four boot phases with their display text, and the three-way boot
    state the splash screen renders. */
module Boot {
  import Text

  /** The boot phases, in declaration order. */
  datatype BootPhase = CoreBoot | AudioDspHardening | VideoEngineSync | AiCopilotValidation

  /** The enum constant's name. */
  function Identifier(p: BootPhase): string {
    match p
    case CoreBoot => "CORE_BOOT"
    case AudioDspHardening => "AUDIO_DSP_HARDENING"
    case VideoEngineSync => "VIDEO_ENGINE_SYNC"
    case AiCopilotValidation => "AI_COPILOT_VALIDATION"
  }

  /** The `displayText` each constant is declared with. */
  function DisplayText(p: BootPhase): string {
    match p
    case CoreBoot => "CORE BOOT"
    case AudioDspHardening => "AUDIO DSP HARDENING"
    case VideoEngineSync => "VIDEO ENGINE SYNC"
    case AiCopilotValidation => "AI COPILOT VALIDATION"
  }

  /** Each display text is the constant's name with every underscore read
      as a space. */
  lemma DisplayTextFromIdentifier(p: BootPhase)
    ensures DisplayText(p) == Text.ReplaceAll(Identifier(p), '_', ' ')
  {
    var r := Text.ReplaceAll(Identifier(p), '_', ' ');
    assert |r| == |DisplayText(p)|;
    forall i | 0 <= i < |r|
      ensures r[i] == DisplayText(p)[i]
    {
    }
  }

  /** The phases in the order they are declared and run. */
  const Phases: seq<BootPhase> := [CoreBoot, AudioDspHardening, VideoEngineSync, AiCopilotValidation]

  /** The position of a phase in `Phases`. */
  function Ordinal(p: BootPhase): (k: nat)
    ensures k < |Phases| && Phases[k] == p
  {
    match p
    case CoreBoot => 0
    case AudioDspHardening => 1
    case VideoEngineSync => 2
    case AiCopilotValidation => 3
  }

  /** Every phase appears in `Phases`, and exactly once. */
  lemma PhasesListEachOnce(p: BootPhase)
    ensures forall i :: 0 <= i < |Phases| ==> (Phases[i] == p <==> i == Ordinal(p))
  {
  }

  /** Initializing (with a progress meant to be within 0..1 and the current
      phase), a boot failure with its message, or the single Ready value. */
  datatype BootState =
    | Initializing(progress: real, phase: BootPhase)
    | Error(message: string)
    | Ready

  /** The documented range of `Initializing.progress`. */
  predicate NormalisedProgress(s: BootState) {
    s.Initializing? ==> 0.0 <= s.progress <= 1.0
  }
}
