/**
 * The personality core badge (`AIPersonalityCore`): five trait bars whose
 * heights follow a jittered "neural activity" that an interval refreshes,
 * falling back to the base trait value, and a "Processing" line while the
 * assistant is active.
 */
module AIPersonalityCore {
  import opened Wrappers
  import opened Text
  import PersonalityControls

  type Traits = PersonalityControls.Traits

  /** The initial `traits` state. */
  const InitialTraits: Traits := PersonalityControls.Traits(0.8, 0.9, 0.85, 0.95, 0.75)

  /** The trait values in `Object.values` order. */
  function Values(t: Traits): (vs: seq<real>)
    ensures |vs| == |PersonalityControls.TraitOrder|
    ensures forall i :: 0 <= i < |vs| ==> vs[i] == PersonalityControls.Get(t, PersonalityControls.TraitOrder[i])
  {
    [t.creativity, t.logic, t.empathy, t.curiosity, t.confidence]
  }

  /** Every initial trait lies in `[0, 1]`. */
  lemma InitialTraitsInRange()
    ensures forall i :: 0 <= i < |Values(InitialTraits)| ==> 0.0 <= Values(InitialTraits)[i] <= 1.0
  {
  }

  /** This component's own copy of `getTraitColor`. */
  function TraitColor(value: real): string {
    if value > 0.8 then "#00FF88"
    else if value > 0.6 then "#00D4FF"
    else if value > 0.4 then "#8B5CF6"
    else "#EC4899"
  }

  /** The copy picks the same colour as the sliders' `getTraitColor` for every value. */
  lemma TraitColorsAgree(value: real)
    ensures TraitColor(value) == PersonalityControls.TraitColor(value)
  {
  }

  /** One activity value, `trait + (Math.random() - 0.5) * 0.2` for a draw `r`: within 0.1 of the base value. */
  function Jitter(base: real, r: real): (a: real)
    requires 0.0 <= r < 1.0
    ensures base - 0.1 <= a < base + 0.1
  {
    base + (r - 0.5) * 0.2
  }

  /** The draws are in `[0, 1)`. */
  predicate Draws(rs: seq<real>) {
    forall i :: 0 <= i < |rs| ==> 0.0 <= rs[i] < 1.0
  }

  /**
   * The activity one interval tick computes: one entry per trait, in trait
   * order, each within 0.1 of its trait.
   */
  function Activity(t: Traits, rs: seq<real>): (a: seq<real>)
    requires |rs| == |Values(t)| && Draws(rs)
    ensures |a| == |Values(t)|
    ensures forall i :: 0 <= i < |a| ==> Values(t)[i] - 0.1 <= a[i] < Values(t)[i] + 0.1
  {
    var vs := Values(t);
    seq(|vs|, i requires 0 <= i < |vs| => Jitter(vs[i], rs[i]))
  }

  /**
   * The value bar `index` shows, `neuralActivity[index] || value`: the
   * activity entry when there is one and it is not 0, the base trait value
   * otherwise.
   */
  function BarValue(activity: seq<real>, index: nat, value: real): (v: real)
    ensures index < |activity| && activity[index] != 0.0 ==> v == activity[index]
    ensures index >= |activity| || activity[index] == 0.0 ==> v == value
  {
    if index < |activity| && activity[index] != 0.0 then activity[index] else value
  }

  /** Before the first tick every bar shows its trait. */
  lemma FirstRenderShowsTraits(t: Traits, index: nat)
    requires index < |Values(t)|
    ensures BarValue([], index, Values(t)[index]) == Values(t)[index]
  {
  }

  /** A bar's height in pixels, `value * 20`. */
  function BarHeight(v: real): real {
    v * 20.0
  }

  /** After a tick, the bar of a trait above 0.1 stays within 2 px of the trait's own height, and is never 0 high. */
  lemma BarsNearTraits(t: Traits, rs: seq<real>, index: nat)
    requires |rs| == |Values(t)| && Draws(rs)
    requires index < |Values(t)| && 0.1 < Values(t)[index]
    ensures var v := BarValue(Activity(t, rs), index, Values(t)[index]);
      BarHeight(Values(t)[index]) - 2.0 <= BarHeight(v) < BarHeight(Values(t)[index]) + 2.0 && BarHeight(v) > 0.0
  {
  }

  /** The label above a bar, `trait.slice(0, 4)`. */
  function ShortName(k: PersonalityControls.TraitKey): (s: string)
    ensures |s| == 4 && StartsWith(PersonalityControls.KeyName(k), s)
  {
    Take(PersonalityControls.KeyName(k), 4)
  }

  /** The footer line: `Processing: mood` exactly while the assistant is active. */
  function ProcessingLine(isActive: bool, currentMood: string): (line: Option<string>)
    ensures line.Some? <==> isActive
    ensures line.Some? ==> line.value == "Processing: " + currentMood
  {
    if isActive then Some("Processing: " + currentMood) else None
  }

  class Core {
    var traits: Traits
    /** The `neuralActivity` state, empty until the interval first fires. */
    var neuralActivity: seq<real>

    constructor ()
      ensures traits == InitialTraits && neuralActivity == []
    {
      traits := InitialTraits;
      neuralActivity := [];
    }

    /** One interval tick with draws `rs`: the activity is recomputed from the traits, which stay as they are. */
    method IntervalTick(rs: seq<real>)
      requires |rs| == |Values(traits)| && Draws(rs)
      modifies this
      ensures neuralActivity == Activity(traits, rs)
      ensures traits == old(traits)
    {
      neuralActivity := Activity(traits, rs);
    }

    /** The value bar `index` shows now. */
    function Bar(index: nat): (v: real)
      reads this
      requires index < |Values(traits)|
      ensures neuralActivity == [] ==> v == Values(traits)[index]
    {
      BarValue(neuralActivity, index, Values(traits)[index])
    }
  }
}
