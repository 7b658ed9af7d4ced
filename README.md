# mapIn workouts: a Dafny model

mapIn is a small browser app for logging workouts on a map. A click on the
map opens a form; submitting it creates a running or cycling workout, adds
it to the app's list, draws a marker and a list entry, and writes the whole
list to local storage; on the next page load the list is read back.

This project models the logic under that plumbing, from `script.js`:

- `workouts.dfy` (module `Workouts`): the `Workout`, `Running` and `Cycling`
  classes as one tagged datatype, the month table, the derived metric of each
  variant (`calcPace`, `calcSpeed`) and the description built by
  `_setDescription`, with a reader that recovers the kind and date from a
  description.
- `validation.dfy` (module `Validation`): the checks of `_newWorkout`
  (`validInputs`, `allPositive`) and the per-type acceptance rule, including
  the asymmetry that cycling does not require a positive elevation gain.
- `app.dfy` (module `Controller`): the `App` class with its `#workouts` list
  and the stored `"workouts"` entry; `_newWorkout`, `_setLocaleStorage`,
  `_getLocalStorage`, `reset`, the lookup of `_moveToPopup` and
  `Workout.click`.
- `numbers.dfy` (module `Numbers`): JavaScript numbers as a finite real, the
  two infinities or NaN, with `Number.isFinite`, `> 0` and division.
- `text.dfy` (module `Text`): decimal rendering of the day of the month,
  first-letter upper-casing, and their inverses.
- `wrappers.dfy` (module `Wrappers`): `Option`.

Numbers are exact reals. A form input is a `Num`, the result of
`+input.value`: an empty field gives 0, garbled text gives NaN and
"Infinity" gives +Infinity. NaN and the infinities fail `Number.isFinite`,
so they are rejected; 0 fails `> 0`, so an empty distance, duration or
cadence is rejected too. An empty elevation field on a cycling form is
accepted, with an elevation gain of 0, because elevation is only required
to be finite (script.js:168-176). A division by zero yields +Infinity, -Infinity or NaN as in IEEE
arithmetic. The clock (`Date.now()`, `new Date()`), the map-click
coordinates held in `#mapEvent` and the id of the clicked list entry are
parameters of the operations.

Selecting a list entry whose id is not in the list throws in the source,
because the result of `find` is dereferenced unchecked (script.js:277-281);
`MoveToPopup` makes the id's presence a precondition. The cadence is only
checked to be finite and positive, not to be an integer
(script.js:158-160), so it is a real here.

## Model

| member | source | states |
|---|---|---|
| `Text.DecimalString` | script.js:29 | The day number is rendered as a non-empty string of decimal digits without a leading zero. |
| `Text.ParseDecimalString` | script.js:29 | Reading the rendered day number back gives the same number. |
| `Text.DigitsValueOfDecimal` | script.js:29 | The digits of the rendered number have exactly that number as their value. |
| `Text.ParseDecimal` | script.js:26-30 | Reader for the description built at script.js:26-30 (no counterpart in the source): exactly the non-empty all-digit strings are read as numbers. |
| `Text.SpaceIndex` | script.js:26-30 | Reader for the description built at script.js:26-30 (no counterpart in the source): the position of the first space, or the length when there is none. |
| `Numbers.Divide` | script.js:45 | JavaScript `/` on finite numbers: for a non-zero divisor a finite quotient that times the divisor gives the dividend; for a zero divisor +Infinity, -Infinity or NaN by the sign of the dividend. |
| `Workouts.Description` | script.js:26-30 | The description starts with the capitalised type, so with 'R' for running and 'C' for cycling, and is longer than the "Running on " / "Cycling on " label. |
| `Workouts.FindMonth` | script.js:26-30 | Reader for the description built at script.js:26-30 (no counterpart in the source): looking a name up in the month table gives an index whose entry is that name, or none when no entry from the start index on is that name. |
| `Workouts.MonthNameFound` | script.js:4 | The twelve month names are distinct, so each one is found at its own index. |
| `Workouts.LabelText` | script.js:27 | Upper-casing the first letter of the type and keeping the rest turns "running" into "Running" and "cycling" into "Cycling", each followed by " on ". |
| `Workouts.DescriptionRoundTrip` | script.js:26-30 | Reading a description back gives the kind and the date (month index and day) it was built from. |
| `Workouts.DescriptionInjective` | script.js:26-30 | Two descriptions are equal only when kind and date are equal. |
| `Workouts.Pace` | script.js:44-47 | Running pace, duration over distance in min/km: finite exactly when the distance is non-zero, then pace times distance is the duration; positive for positive inputs. |
| `Workouts.Speed` | script.js:58-61 | Cycling speed, distance over duration in hours: finite exactly when the duration is non-zero, then speed times duration is sixty times the distance; positive for positive inputs. |
| `Workouts.NewRunning` | script.js:36-43 | A new running workout keeps the id, date, coordinates, distance, duration and cadence it was given, starts with zero clicks, has the pace of `calcPace`, and its description reads back as "running" on that date. |
| `Workouts.NewCycling` | script.js:50-57 | A new cycling workout keeps the id, date, coordinates, distance, duration and elevation gain it was given, starts with zero clicks, has the speed of `calcSpeed`, and its description reads back as "cycling" on that date. |
| `Workouts.RunningExample` | script.js:36-47 | 5 km in 25 min gives a pace of 5 min/km and the description "Running on January 5" for January 5. |
| `Validation.ValidInputs` | script.js:139-140 | `validInputs` holds exactly when every input is finite. |
| `Validation.AllPositive` | script.js:142 | `allPositive` holds exactly when every input compares greater than zero (+Infinity does, NaN does not). |
| `Validation.Accepts` | script.js:153-176 | Running is accepted iff distance, duration and cadence are finite and positive; cycling iff distance, duration and elevation are finite and distance and duration are positive. |
| `Validation.AcceptsIgnoresOtherField` | script.js:154-176 | Running ignores the elevation field and cycling ignores the cadence field. |
| `Validation.NonPositiveMetric` | script.js:158-176 | A zero or negative metric input rejects a running submission and is accepted for a cycling one with the same positive distance and duration; in particular an empty elevation field, which `+""` turns into 0, is accepted. |
| `Validation.InfinityRejected` | script.js:139-176 | An infinite distance, duration or metric input is rejected although it passes the positivity test. |
| `Validation.Construct` | script.js:164-177 | The workout built from an accepted submission has the submitted type and values, the given id, date and coordinates, zero clicks and consistent derived fields. |
| `Validation.ConstructedMetricPositive` | script.js:154-177 | A workout built from an accepted submission has a finite, positive pace or speed. |
| `Controller.FindById` | script.js:277-279 | The lookup finds nothing exactly when no workout has the id; otherwise it returns the first workout with that id. |
| `Controller.App.constructor` | script.js:69-76 | At page load the list starts empty and is then filled from storage: the stored list if there is one, else empty. |
| `Controller.App.GetLocalStorage` | script.js:297-303 | With nothing stored the list is unchanged; otherwise the stored list replaces it wholesale; storage is not changed. |
| `Controller.App.SetLocalStorage` | script.js:292-294 | Storage then holds exactly the current list, which is unchanged. |
| `Controller.App.NewWorkout` | script.js:135-199 | The submission is accepted iff it passes the checks; a rejected one changes neither the list nor storage; an accepted one appends exactly the constructed workout after the unchanged earlier entries and leaves storage holding the full list; consistency of all records is preserved. |
| `Controller.App.MoveToPopup` | script.js:273-286 | A click outside an entry requests nothing; a click on an entry requests a recentre at zoom 13 on the coordinates of the first workout with that id. |
| `Controller.App.Click` | script.js:31-33 | The clicked workout's click count goes up by exactly one; every other field, every other workout and storage are unchanged. |
| `Controller.App.Reset` | script.js:310-311 | The stored entry is removed; the list in memory is untouched. |
| `Controller.RestartAfterReset` | script.js:310-312 | After a reset and the page reload it triggers, the new app has no workouts and nothing stored. |
| `Controller.ReloadAfterSubmit` | script.js:179-198 | After an accepted submission, the next page load reads back exactly the list, ending with the new workout. |

## Left out

- Map drawing with Leaflet (`_loadMAp`, `_renderWorkoutMarker`, the `setView` call itself): foreign library calls; `MoveToPopup` returns the recentre request instead.
- Geolocation (`_getPosition`) and its fallback message: asynchronous browser I/O.
- DOM work: `_showForm`, `_toggleElevationField`, `_renderWorkout` (HTML building, `toFixed(1)` formatting, `insertAdjacentHTML`), clearing and hiding the form, and the `alert` on rejection.
- `+input.value`: the conversion of the form's text to a number; each input arrives already as a `Num`.
- `JSON.stringify` / `JSON.parse` and `localStorage`: storage is an optional list of the same values. The model does not capture that a reloaded record is a plain object without the class methods, that its `date` becomes a string, or that malformed stored text makes `JSON.parse` throw.
- `Date.now()` and `new Date()`: the id and the date are parameters, so the probabilistic uniqueness of ids is not modelled.
- `#mapEvent`: the clicked coordinates are a parameter of `NewWorkout`; a submission before any map click, which throws in the source, is not modelled.
- A form type other than "running" or "cycling", for which the source appends `undefined`: the type is a two-valued enumeration, as the form's selector offers only those two.
- `location.reload()`: modelled only as constructing a new `App` over the storage, in `RestartAfterReset`.
- Floating point: values are exact reals, so rounding, overflow and the sign of zero are not modelled.
- `Text.UpperCase`: handles ASCII letters only, where `toUpperCase` covers all of Unicode; only "running" and "cycling" ever reach it.
- `Controller.App.Click`: the workout is a value, so `click` is modelled as an update of the record at a position of the list; aliasing of the same object elsewhere is not captured. The source has no live caller (the call in `_moveToPopup` is commented out).
- The order in which `Running` computes its pace before setting its description: in a value model both are fields of one constructed record and the description does not depend on the pace.
