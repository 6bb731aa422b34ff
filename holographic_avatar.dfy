/**
 * The avatar (`HolographicAvatar`): its colour and gradient follow the
 * mood, its border and data streams follow listening and speaking, and an
 * interval redraws its energy level in a band that depends on whether it
 * is active. The `brainWave` angle and all trigonometric drawing are not
 * part of this model.
 */
module HolographicAvatar {
  import opened Wrappers

  /** The `mood` prop, `'neutral'` when it is not given. */
  function MoodProp(mood: Option<string>): (m: string)
    ensures mood.None? ==> m == "neutral"
    ensures mood.Some? ==> m == mood.value
  {
    mood.GetOr("neutral")
  }

  /** The four moods the switches name; every other value takes the default branch. */
  predicate Named(mood: string) {
    mood == "happy" || mood == "thinking" || mood == "excited" || mood == "focused"
  }

  /** `getMoodColor`. */
  function MoodColor(mood: string): (c: string)
    ensures mood == "happy" ==> c == "#00FF88"
    ensures mood == "thinking" ==> c == "#8B5CF6"
    ensures mood == "excited" ==> c == "#FF6B35"
    ensures mood == "focused" || !Named(mood) ==> c == "#00D4FF"
  {
    match mood
    case "happy" => "#00FF88"
    case "thinking" => "#8B5CF6"
    case "excited" => "#FF6B35"
    case "focused" => "#00D4FF"
    case _ => "#00D4FF"
  }

  /** `getMoodGradient`. */
  function MoodGradient(mood: string): (g: string)
    ensures mood == "happy" ==> g == "from-green-400 via-cyan-400 to-blue-500"
    ensures mood == "thinking" ==> g == "from-purple-400 via-pink-400 to-indigo-500"
    ensures mood == "excited" ==> g == "from-orange-400 via-red-400 to-pink-500"
    ensures mood == "focused" ==> g == "from-cyan-400 via-blue-400 to-purple-500"
    ensures !Named(mood) ==> g == "from-cosmic-cyan via-cosmic-purple to-cosmic-pink"
  {
    match mood
    case "happy" => "from-green-400 via-cyan-400 to-blue-500"
    case "thinking" => "from-purple-400 via-pink-400 to-indigo-500"
    case "excited" => "from-orange-400 via-red-400 to-pink-500"
    case "focused" => "from-cyan-400 via-blue-400 to-purple-500"
    case _ => "from-cosmic-cyan via-cosmic-purple to-cosmic-pink"
  }

  /**
   * Two moods share a colour exactly when they are equal or both fall in
   * the cyan group: `focused` together with every unnamed mood.
   */
  lemma ColorsAgree(m1: string, m2: string)
    ensures MoodColor(m1) == MoodColor(m2) <==>
      m1 == m2 || ((m1 == "focused" || !Named(m1)) && (m2 == "focused" || !Named(m2)))
  {
  }

  /** The default `neutral` avatar has the colour of `focused` but a gradient of its own. */
  lemma NeutralLikeFocused()
    ensures MoodColor(MoodProp(None)) == MoodColor("focused")
    ensures MoodGradient(MoodProp(None)) != MoodGradient("focused")
  {
  }

  /** Two moods share a gradient exactly when they are equal or neither is one of the four named moods. */
  lemma GradientsDistinct(m1: string, m2: string)
    ensures MoodGradient(m1) == MoodGradient(m2) <==> m1 == m2 || (!Named(m1) && !Named(m2))
  {
  }

  /** Whether the avatar is active: speaking or listening. */
  predicate Active(isListening: bool, isSpeaking: bool) {
    isSpeaking || isListening
  }

  /**
   * The energy level one interval tick sets for a draw `r` of
   * `Math.random()`: `0.8 + r * 0.2` while active, `0.3 + r * 0.2` otherwise.
   */
  function Energy(active: bool, r: real): (e: real)
    requires 0.0 <= r < 1.0
    ensures active ==> 0.8 <= e < 1.0
    ensures !active ==> 0.3 <= e < 0.5
  {
    (if active then 0.8 else 0.3) + r * 0.2
  }

  /** Every band value is reached: `e` in the active band is the level of the draw `(e - 0.8) / 0.2`, and likewise when idle. */
  lemma EnergyBandCovered(active: bool, e: real)
    requires active ==> 0.8 <= e < 1.0
    requires !active ==> 0.3 <= e < 0.5
    ensures var r := (e - (if active then 0.8 else 0.3)) / 0.2; 0.0 <= r < 1.0 && Energy(active, r) == e
  {
    var r := (e - (if active then 0.8 else 0.3)) / 0.2;
    assert r * 0.2 == e - (if active then 0.8 else 0.3);
  }

  /** The main container's classes: listening wins over speaking. */
  function BorderClass(isListening: bool, isSpeaking: bool): (cls: string)
    ensures isListening ==> cls == "border-cyan-400 animate-pulse-glow scale-110"
    ensures !isListening && isSpeaking ==> cls == "border-purple-400 animate-pulse-glow scale-105"
    ensures !Active(isListening, isSpeaking) ==> cls == "border-cosmic-cyan/30 scale-100"
  {
    if isListening then "border-cyan-400 animate-pulse-glow scale-110"
    else if isSpeaking then "border-purple-400 animate-pulse-glow scale-105"
    else "border-cosmic-cyan/30 scale-100"
  }

  /** Listening overrides speaking: the border while both hold is the listening one. */
  lemma ListeningTakesPrecedence(isSpeaking: bool)
    ensures BorderClass(true, isSpeaking) == BorderClass(true, false)
    ensures BorderClass(true, true) != BorderClass(false, true)
  {
  }

  /** The six data-stream dots are rendered. */
  predicate DataStreamsShown(isListening: bool, isSpeaking: bool) {
    isListening || isSpeaking
  }

  /**
   * The data streams, the glowing border and the high energy band go
   * together: each holds exactly when the avatar is active.
   */
  lemma StreamsMatchBorder(isListening: bool, isSpeaking: bool, r: real)
    requires 0.0 <= r < 1.0
    ensures DataStreamsShown(isListening, isSpeaking) <==> BorderClass(isListening, isSpeaking) != "border-cosmic-cyan/30 scale-100"
    ensures DataStreamsShown(isListening, isSpeaking) <==> Energy(Active(isListening, isSpeaking), r) >= 0.8
  {
  }

  class Avatar {
    var isListening: bool
    var isSpeaking: bool
    /** The `energyLevel` state. */
    var energyLevel: real

    /** The energy level lies in the union of the two bands, which holds the initial 0.5. */
    ghost predicate Valid()
      reads this
    {
      0.3 <= energyLevel < 1.0
    }

    /** A mounted avatar: the props as given (`undefined` read as false) and energy 0.5. */
    constructor (isListening: bool, isSpeaking: bool)
      ensures this.isListening == isListening && this.isSpeaking == isSpeaking
      ensures energyLevel == 0.5
      ensures Valid()
    {
      this.isListening := isListening;
      this.isSpeaking := isSpeaking;
      energyLevel := 0.5;
    }

    /** New props: the effect restarts its interval, the energy level stays until the next tick. */
    method SetProps(isListening: bool, isSpeaking: bool)
      modifies this
      ensures this.isListening == isListening && this.isSpeaking == isSpeaking
      ensures energyLevel == old(energyLevel)
    {
      this.isListening := isListening;
      this.isSpeaking := isSpeaking;
    }

    /** One interval tick with draw `r`: the energy level is drawn from the band of the current props. */
    method Tick(r: real)
      requires 0.0 <= r < 1.0
      modifies this
      ensures energyLevel == Energy(Active(isListening, isSpeaking), r)
      ensures isListening == old(isListening) && isSpeaking == old(isSpeaking)
      ensures Valid()
    {
      energyLevel := Energy(isSpeaking || isListening, r);
    }
  }
}
