/**
 * Workout records: the `Workout` base class with its two subclasses
 * `Running` and `Cycling`, as one tagged datatype. Each variant computes its
 * derived metric and its description once, when it is constructed.
 */
module Workouts {
  import opened Wrappers
  import opened Text
  import opened Numbers

  /** The month-name table used for descriptions. */
  const Months: seq<string> :=
    ["January", "February", "March", "April", "May", "June",
     "July", "August", "September", "October", "November", "December"]

  /** `Date.getMonth()`: zero-based. */
  type MonthIndex = m: int | 0 <= m < 12

  /** `Date.getDate()`: the day of the month. */
  type DayOfMonth = d: int | 1 <= d <= 31 witness 1

  /** The part of the creation date that the record uses. */
  datatype Date = Date(month: MonthIndex, day: DayOfMonth)

  /** A `[lat, lng]` pair. */
  datatype Coords = Coords(lat: real, lng: real)

  /** The value of the `type` field, and of the form's type selector. */
  datatype Kind = Running | Cycling

  function TypeName(k: Kind): string {
    match k
    case Running => "running"
    case Cycling => "cycling"
  }

  /**
   * A workout. The shared fields come from `Workout`; `cadence` and `pace`
   * from `Running`, `elevationGain` and `speed` from `Cycling`. Distances are
   * in km, durations in minutes.
   */
  datatype Workout =
    | Running(id: string, date: Date, coords: Coords, distance: real, duration: real,
              clicks: nat, description: string, cadence: real, pace: Num)
    | Cycling(id: string, date: Date, coords: Coords, distance: real, duration: real,
              clicks: nat, description: string, elevationGain: real, speed: Num)
  {
    function Type(): Kind {
      if Running? then Kind.Running else Kind.Cycling
    }
  }

  /** What precedes the month name in a description of kind `k`. */
  function Label(k: Kind): string {
    Capitalize(TypeName(k)) + " on "
  }

  /** `_setDescription`: capitalised type, " on ", month name, a space, day of month. */
  function Description(k: Kind, d: Date): (s: string)
    ensures |Label(k)| < |s|
    ensures s[0] == (if k == Kind.Running then 'R' else 'C')
  {
    Label(k) + Months[d.month] + " " + DecimalString(d.day)
  }

  /* Reading a description back: the partner that shows it loses nothing. */

  function FindMonth(name: string, from: nat): (r: Option<MonthIndex>)
    ensures r.Some? ==> from <= r.value && Months[r.value] == name
    ensures r.None? ==> forall m :: from <= m < 12 ==> Months[m] != name
    decreases 12 - from
  {
    if from >= 12 then None
    else if Months[from] == name then Some(from)
    else FindMonth(name, from + 1)
  }

  function ParseDate(s: string): Option<Date> {
    var i := SpaceIndex(s);
    if i == |s| then None
    else match (FindMonth(s[..i], 0), ParseDecimal(s[i + 1..]))
      case (Some(m), Some(day)) => if 1 <= day <= 31 then Some(Date(m, day)) else None
      case _ => None
  }

  function ParseDescription(s: string): Option<(Kind, Date)> {
    var run, cyc := Label(Kind.Running), Label(Kind.Cycling);
    if |run| <= |s| && s[..|run|] == run then
      match ParseDate(s[|run|..])
      case Some(d) => Some((Kind.Running, d))
      case None => None
    else if |cyc| <= |s| && s[..|cyc|] == cyc then
      match ParseDate(s[|cyc|..])
      case Some(d) => Some((Kind.Cycling, d))
      case None => None
    else None
  }

  lemma MonthNameFound(m: MonthIndex)
    ensures FindMonth(Months[m], 0) == Some(m)
  {
  }

  lemma ParseDateOf(d: Date)
    ensures ParseDate(Months[d.month] + " " + DecimalString(d.day)) == Some(d)
  {
    var name, digits := Months[d.month], DecimalString(d.day);
    var s := name + " " + digits;
    assert ' ' !in name;
    SpaceIndexAfterWord(name, digits);
    assert s[..|name|] == name;
    assert s[|name| + 1..] == digits;
    MonthNameFound(d.month);
    ParseDecimalString(d.day);
  }

  /** The type names capitalise to "Running" and "Cycling". */
  lemma LabelText()
    ensures Label(Kind.Running) == "Running on " && Label(Kind.Cycling) == "Cycling on "
  {
  }

  /** The description names the kind and the date it was built from, and nothing else. */
  lemma DescriptionRoundTrip(k: Kind, d: Date)
    ensures ParseDescription(Description(k, d)) == Some((k, d))
  {
    var s := Description(k, d);
    var rest := Months[d.month] + " " + DecimalString(d.day);
    assert s == Label(k) + rest;
    assert s[..|Label(k)|] == Label(k);
    assert s[|Label(k)|..] == rest;
    ParseDateOf(d);
    if k == Kind.Cycling {
      assert Label(Kind.Running)[0] == 'R';
    }
  }

  /** Descriptions of different kinds or dates differ. */
  lemma DescriptionInjective(k1: Kind, d1: Date, k2: Kind, d2: Date)
    requires Description(k1, d1) == Description(k2, d2)
    ensures k1 == k2 && d1 == d2
  {
    DescriptionRoundTrip(k1, d1);
    DescriptionRoundTrip(k2, d2);
  }

  /** The derived fields of `w` agree with the inputs it records. */
  predicate Consistent(w: Workout) {
    && w.description == Description(w.Type(), w.date)
    && (w.Running? ==> w.pace == Pace(w.distance, w.duration))
    && (w.Cycling? ==> w.speed == Speed(w.distance, w.duration))
  }

  /**
   * `calcPace`: minutes per km. Finite exactly when the distance is not zero,
   * and then pace times distance gives back the duration.
   */
  function Pace(distance: real, duration: real): (pace: Num)
    ensures pace.Finite? <==> distance != 0.0
    ensures pace.Finite? ==> pace.value * distance == duration
    ensures distance > 0.0 && duration > 0.0 ==> pace.Finite? && pace.value > 0.0
  {
    Divide(duration, distance)
  }

  /**
   * `calcSpeed`: km per hour, the duration being converted from minutes to
   * hours. Finite exactly when the duration is not zero, and then speed times
   * duration gives back sixty times the distance.
   */
  function Speed(distance: real, duration: real): (speed: Num)
    ensures speed.Finite? <==> duration != 0.0
    ensures speed.Finite? ==> speed.value * duration == 60.0 * distance
    ensures distance > 0.0 && duration > 0.0 ==> speed.Finite? && speed.value > 0.0
  {
    Divide(distance, duration / 60.0)
  }

  /** `new Running(coords, distance, duration, cadence)`: `calcPace`, then `_setDescription`. */
  function NewRunning(id: string, date: Date, coords: Coords, distance: real, duration: real, cadence: real): (w: Workout)
    ensures w.Running? && w.id == id && w.date == date && w.coords == coords
    ensures w.distance == distance && w.duration == duration && w.cadence == cadence
    ensures w.clicks == 0
    ensures ParseDescription(w.description) == Some((Kind.Running, date))
    ensures Consistent(w)
  {
    var pace := Pace(distance, duration);
    DescriptionRoundTrip(Kind.Running, date);
    var w := Workout.Running(id, date, coords, distance, duration, 0, Description(Kind.Running, date), cadence, pace);
    assert w.Type() == Kind.Running;
    w
  }

  /** `new Cycling(coords, distance, duration, elevationGain)`: `calcSpeed`, then `_setDescription`. */
  function NewCycling(id: string, date: Date, coords: Coords, distance: real, duration: real, elevationGain: real): (w: Workout)
    ensures w.Cycling? && w.id == id && w.date == date && w.coords == coords
    ensures w.distance == distance && w.duration == duration && w.elevationGain == elevationGain
    ensures w.clicks == 0
    ensures ParseDescription(w.description) == Some((Kind.Cycling, date))
    ensures Consistent(w)
  {
    var speed := Speed(distance, duration);
    DescriptionRoundTrip(Kind.Cycling, date);
    var w := Workout.Cycling(id, date, coords, distance, duration, 0, Description(Kind.Cycling, date), elevationGain, speed);
    assert w.Type() == Kind.Cycling;
    w
  }

  /** Five km in 25 minutes is a pace of 5 min/km; the label reads "Running on January 5". */
  lemma RunningExample()
    ensures var w := NewRunning("0123456789", Date(0, 5), Coords(51.5, -0.12), 5.0, 25.0, 178.0);
      w.pace == Finite(5.0) && w.description == "Running on January 5"
  {
    var w := NewRunning("0123456789", Date(0, 5), Coords(51.5, -0.12), 5.0, 25.0, 178.0);
    assert w.description == Description(Kind.Running, Date(0, 5));
    LabelText();
    assert DecimalString(5) == "5";
    assert Description(Kind.Running, Date(0, 5)) == "Running on " + "January" + " " + "5" == "Running on January 5";
  }
}
