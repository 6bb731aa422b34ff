/**
 * The personality sliders (`PersonalityControls`): one row per trait with
 * its label, a percentage in the trait's colour bucket, and a slider on
 * `[0, 1]` in steps of 0.01 whose change is reported for the row's trait.
 */
module PersonalityControls {
  import opened JsMath

  /** The `PersonalityTraits` record. */
  datatype Traits = Traits(creativity: real, logic: real, empathy: real, curiosity: real, confidence: real)

  /** The record's keys, `keyof PersonalityTraits`. */
  datatype TraitKey = Creativity | Logic | Empathy | Curiosity | Confidence

  /**
   * The keys in declaration order. `Object.entries` lists an object's keys
   * in insertion order, so this is the row order when the caller builds
   * `traits` in that order, as `AIPersonalityCore`'s initial state does.
   */
  const TraitOrder: seq<TraitKey> := [Creativity, Logic, Empathy, Curiosity, Confidence]

  /** Every key appears in the order once. */
  lemma TraitOrderComplete(k: TraitKey)
    ensures exists i :: 0 <= i < |TraitOrder| && TraitOrder[i] == k
    ensures forall i, j :: 0 <= i < j < |TraitOrder| ==> TraitOrder[i] != TraitOrder[j]
  {
    match k
    case Creativity => assert TraitOrder[0] == k;
    case Logic => assert TraitOrder[1] == k;
    case Empathy => assert TraitOrder[2] == k;
    case Curiosity => assert TraitOrder[3] == k;
    case Confidence => assert TraitOrder[4] == k;
  }

  /** `traits[k]`. */
  function Get(t: Traits, k: TraitKey): real {
    match k
    case Creativity => t.creativity
    case Logic => t.logic
    case Empathy => t.empathy
    case Curiosity => t.curiosity
    case Confidence => t.confidence
  }

  /** The property name of a key. */
  function KeyName(k: TraitKey): string {
    match k
    case Creativity => "creativity"
    case Logic => "logic"
    case Empathy => "empathy"
    case Curiosity => "curiosity"
    case Confidence => "confidence"
  }

  /** `traitLabels[k]`. */
  function Label(k: TraitKey): string {
    match k
    case Creativity => "Creativity"
    case Logic => "Logic"
    case Empathy => "Empathy"
    case Curiosity => "Curiosity"
    case Confidence => "Confidence"
  }

  /** Distinct keys have distinct names and distinct labels. */
  lemma NamesDistinct(k1: TraitKey, k2: TraitKey)
    ensures KeyName(k1) == KeyName(k2) <==> k1 == k2
    ensures Label(k1) == Label(k2) <==> k1 == k2
  {
  }

  /**
   * `getTraitColor`: green above 0.8, cyan above 0.6, purple above 0.4,
   * pink otherwise. The thresholds are strict, so each bucket is a
   * half-open interval closed at the top.
   */
  function TraitColor(value: real): (color: string)
    ensures color == "#00FF88" <==> value > 0.8
    ensures color == "#00D4FF" <==> 0.6 < value <= 0.8
    ensures color == "#8B5CF6" <==> 0.4 < value <= 0.6
    ensures color == "#EC4899" <==> value <= 0.4
  {
    if value > 0.8 then "#00FF88"
    else if value > 0.6 then "#00D4FF"
    else if value > 0.4 then "#8B5CF6"
    else "#EC4899"
  }

  /** The boundaries belong to the lower bucket: 0.8 is cyan, 0.6 purple, 0.4 pink. */
  lemma BoundariesGoDown()
    ensures TraitColor(0.8) == "#00D4FF"
    ensures TraitColor(0.6) == "#8B5CF6"
    ensures TraitColor(0.4) == "#EC4899"
  {
  }

  /** A higher value never gets a lower bucket. */
  lemma TraitColorMonotone(v: real, w: real)
    requires v <= w
    ensures Bucket(TraitColor(v)) <= Bucket(TraitColor(w))
  {
  }

  /** The rank of a bucket colour, pink lowest. */
  function Bucket(color: string): nat {
    if color == "#00FF88" then 3
    else if color == "#00D4FF" then 2
    else if color == "#8B5CF6" then 1
    else 0
  }

  /** The percentage shown, `Math.round(value * 100)`: between 0 and 100 for a value in `[0, 1]`. */
  function Percent(value: real): (p: int)
    ensures 0.0 <= value <= 1.0 ==> 0 <= p <= 100
  {
    Round(value * 100.0)
  }

  /** Position `n` of the slider (`min 0`, `max 1`, `step 0.01`). */
  function SliderValue(n: nat): (v: real)
    requires n <= 100
    ensures 0.0 <= v <= 1.0
  {
    n as real / 100.0
  }

  /** The percentage of slider position `n` is `n`: the displayed number reads back the position. */
  lemma PercentOfSlider(n: nat)
    requires n <= 100
    ensures Percent(SliderValue(n)) == n
  {
    assert SliderValue(n) * 100.0 == n as real;
  }

  /** One rendered row. */
  datatype Row = Row(key: TraitKey, caption: string, value: real, color: string, percent: int)

  /** The row for trait `k`. */
  function RowFor(t: Traits, k: TraitKey): Row {
    var v := Get(t, k);
    Row(k, Label(k), v, TraitColor(v), Percent(v))
  }

  /** The panel's rows: one per trait, in declaration order, each showing that trait's value. */
  function Rows(t: Traits): (rows: seq<Row>)
    ensures |rows| == |TraitOrder|
    ensures forall i :: 0 <= i < |rows| ==> rows[i].key == TraitOrder[i] && rows[i].value == Get(t, TraitOrder[i])
    ensures forall i :: 0 <= i < |rows| ==> rows[i].color == TraitColor(rows[i].value) && rows[i].caption == Label(rows[i].key)
  {
    seq(|TraitOrder|, i requires 0 <= i < |TraitOrder| => RowFor(t, TraitOrder[i]))
  }

  /**
   * `onValueChange` of a row's slider: `onTraitChange` receives the row's
   * own key and the first value of the slider's array.
   */
  function SliderChange(row: Row, newValues: seq<real>): (change: (TraitKey, real))
    requires |newValues| > 0
    ensures change.0 == row.key && change.1 == newValues[0]
  {
    (row.key, newValues[0])
  }

  /** The change reported by row `i` names the `i`-th trait, whatever the values. */
  lemma ChangeReportsRowTrait(t: Traits, i: int, newValues: seq<real>)
    requires 0 <= i < |TraitOrder| && |newValues| > 0
    ensures SliderChange(Rows(t)[i], newValues) == (TraitOrder[i], newValues[0])
  {
  }
}
