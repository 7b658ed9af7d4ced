/**
 * The input checks of `App._newWorkout`: `validInputs` (every input is a
 * finite number) and `allPositive` (every input is greater than zero), and
 * the rule that combines them per workout type.
 */
module Validation {
  import opened Numbers
  import opened Workouts

  /**
   * The form at the moment it is submitted: the selected type and the four
   * numeric fields after `+input.value`. Only one of cadence and elevation is
   * read, depending on the type.
   */
  datatype Submission = Submission(kind: Kind, distance: Num, duration: Num, cadence: Num, elevation: Num)

  /** `validInputs(...inputs)`: `inputs.every(Number.isFinite)`. */
  function ValidInputs(inputs: seq<Num>): (ok: bool)
    ensures ok <==> forall i :: 0 <= i < |inputs| ==> IsFinite(inputs[i])
  {
    if inputs == [] then true
    else IsFinite(inputs[0]) && ValidInputs(inputs[1..])
  }

  /** `allPositive(...inputs)`: `inputs.every(inp => inp > 0)`. */
  function AllPositive(inputs: seq<Num>): (ok: bool)
    ensures ok <==> forall i :: 0 <= i < |inputs| ==> IsPositive(inputs[i])
  {
    if inputs == [] then true
    else IsPositive(inputs[0]) && AllPositive(inputs[1..])
  }

  /** The metric-specific input of a submission: cadence for running, elevation gain for cycling. */
  function Metric(s: Submission): Num {
    match s.kind
    case Running => s.cadence
    case Cycling => s.elevation
  }

  /**
   * Whether `_newWorkout` gets past its checks. Running needs distance,
   * duration and cadence finite and positive; cycling needs distance,
   * duration and elevation finite, but only distance and duration positive.
   */
  function Accepts(s: Submission): (ok: bool)
    ensures s.kind == Kind.Running ==>
      (ok <==> && s.distance.Finite? && s.duration.Finite? && s.cadence.Finite?
               && s.distance.value > 0.0 && s.duration.value > 0.0 && s.cadence.value > 0.0)
    ensures s.kind == Kind.Cycling ==>
      (ok <==> && s.distance.Finite? && s.duration.Finite? && s.elevation.Finite?
               && s.distance.value > 0.0 && s.duration.value > 0.0)
  {
    match s.kind
    case Running =>
      var inputs := [s.distance, s.duration, s.cadence];
      assert inputs[0] == s.distance && inputs[1] == s.duration && inputs[2] == s.cadence;
      ValidInputs(inputs) && AllPositive(inputs)
    case Cycling =>
      var inputs, positives := [s.distance, s.duration, s.elevation], [s.distance, s.duration];
      assert inputs[0] == positives[0] == s.distance && inputs[1] == positives[1] == s.duration;
      assert inputs[2] == s.elevation;
      ValidInputs(inputs) && AllPositive(positives)
  }

  /** Only the fields the selected type reads decide acceptance. */
  lemma AcceptsIgnoresOtherField(s: Submission, other: Num)
    ensures s.kind == Kind.Running ==> Accepts(s.(elevation := other)) == Accepts(s)
    ensures s.kind == Kind.Cycling ==> Accepts(s.(cadence := other)) == Accepts(s)
  {
  }

  /**
   * The asymmetry between the two types: with the same positive distance and
   * duration, a metric input of zero or below rejects a running submission
   * and is accepted for a cycling one.
   */
  lemma NonPositiveMetric(distance: real, duration: real, x: real)
    requires distance > 0.0 && duration > 0.0 && x <= 0.0
    ensures !Accepts(Submission(Kind.Running, Finite(distance), Finite(duration), Finite(x), Finite(x)))
    ensures Accepts(Submission(Kind.Cycling, Finite(distance), Finite(duration), Finite(x), Finite(x)))
  {
  }

  /** An infinite input is rejected for both types, even where it would count as positive. */
  lemma InfinityRejected(s: Submission)
    requires s.distance == PosInf || s.duration == PosInf || Metric(s) == PosInf
    ensures !Accepts(s)
  {
  }

  /**
   * `new Running(...)` or `new Cycling(...)` from an accepted submission, at
   * the clicked coordinates, with the id and date taken at construction.
   */
  function Construct(s: Submission, coords: Coords, id: string, date: Date): (w: Workout)
    requires Accepts(s)
    ensures w.Type() == s.kind && w.id == id && w.date == date && w.coords == coords
    ensures w.distance == s.distance.value && w.duration == s.duration.value
    ensures w.Running? ==> w.cadence == s.cadence.value
    ensures w.Cycling? ==> w.elevationGain == s.elevation.value
    ensures w.clicks == 0 && Consistent(w)
  {
    match s.kind
    case Running =>
      NewRunning(id, date, coords, s.distance.value, s.duration.value, s.cadence.value)
    case Cycling =>
      NewCycling(id, date, coords, s.distance.value, s.duration.value, s.elevation.value)
  }

  /** An accepted submission yields a positive finite pace or speed. */
  lemma ConstructedMetricPositive(s: Submission, coords: Coords, id: string, date: Date)
    requires Accepts(s)
    ensures var w := Construct(s, coords, id, date);
      && (w.Running? ==> w.pace.Finite? && w.pace.value > 0.0)
      && (w.Cycling? ==> w.speed.Finite? && w.speed.value > 0.0)
  {
  }
}
