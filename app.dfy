/**
 * The `App` controller: the in-memory workout list (`#workouts`), the
 * `"workouts"` entry of local storage, and the operations that move records
 * between them. Map, DOM and form plumbing stay outside; the map-click
 * coordinates, the creation id and date and the clicked list entry arrive
 * as parameters.
 */
module Controller {
  import opened Wrappers
  import opened Numbers
  import opened Workouts
  import opened Validation

  /** `#mapZoom`. */
  const MapZoom: nat := 13

  /** A recentre request for the map: `setView(center, zoom)`. */
  datatype View = View(center: Coords, zoom: nat)

  /** `#workouts.find(work => work.id === id)`: the first workout with that id. */
  function FindById(ws: seq<Workout>, id: string): (r: Option<Workout>)
    ensures r.None? <==> forall i :: 0 <= i < |ws| ==> ws[i].id != id
    ensures r.Some? ==> exists i :: 0 <= i < |ws| && ws[i] == r.value && ws[i].id == id
                                   && forall j :: 0 <= j < i ==> ws[j].id != id
  {
    if ws == [] then None
    else if ws[0].id == id then Some(ws[0])
    else
      var r := FindById(ws[1..], id);
      assert r.Some? ==> exists i :: 0 < i < |ws| && ws[i] == r.value && ws[i].id == id
                                    && forall j :: 0 <= j < i ==> ws[j].id != id;
      r
  }

  /** Every record's derived fields agree with its inputs. */
  predicate AllConsistent(ws: seq<Workout>) {
    forall i :: 0 <= i < |ws| ==> Consistent(ws[i])
  }

  class App {
    /** `#workouts`, in insertion order. */
    var workouts: seq<Workout>
    /** `localStorage.getItem("workouts")`, with JSON encoding abstracted away. */
    var stored: Option<seq<Workout>>

    /** The stored entry holds exactly the in-memory list. */
    ghost predicate Synced()
      reads this
    {
      stored == Some(workouts)
    }

    /**
     * `new App()` at page load, over whatever the storage holds: the list
     * starts empty and `_getLocalStorage` then fills it.
     */
    constructor (blob: Option<seq<Workout>>)
      ensures stored == blob
      ensures workouts == (if blob.Some? then blob.value else [])
    {
      workouts := [];
      stored := blob;
      new;
      GetLocalStorage();
    }

    /** `_getLocalStorage`: nothing stored leaves the list; otherwise the stored list replaces it. */
    method GetLocalStorage()
      modifies this
      ensures stored == old(stored)
      ensures old(stored).None? ==> workouts == old(workouts)
      ensures old(stored).Some? ==> workouts == old(stored).value && Synced()
    {
      if stored.None? {
        return;
      }
      workouts := stored.value;
    }

    /** `_setLocaleStorage`: the whole list is written to storage. */
    method SetLocalStorage()
      modifies this
      ensures workouts == old(workouts)
      ensures Synced()
    {
      stored := Some(workouts);
    }

    /**
     * `_newWorkout`: a submission that fails its checks changes nothing; an
     * accepted one appends exactly one new record and then persists the list.
     */
    method NewWorkout(s: Submission, at: Coords, id: string, date: Date) returns (accepted: bool)
      modifies this
      ensures accepted == Accepts(s)
      ensures !accepted ==> workouts == old(workouts) && stored == old(stored)
      ensures accepted ==> && |workouts| == |old(workouts)| + 1
                           && workouts[..|old(workouts)|] == old(workouts)
                           && workouts[|old(workouts)|] == Construct(s, at, id, date)
                           && Synced()
      ensures AllConsistent(old(workouts)) ==> AllConsistent(workouts)
    {
      var workout: Workout;
      if s.kind == Kind.Running {
        var inputs := [s.distance, s.duration, s.cadence];
        if !ValidInputs(inputs) || !AllPositive(inputs) {
          return false;
        }
        assert inputs[0] == s.distance && inputs[1] == s.duration && inputs[2] == s.cadence;
        workout := NewRunning(id, date, at, s.distance.value, s.duration.value, s.cadence.value);
      } else {
        var inputs := [s.distance, s.duration, s.elevation];
        if !ValidInputs(inputs) || !AllPositive([s.distance, s.duration]) {
          return false;
        }
        assert inputs[0] == s.distance && inputs[1] == s.duration && inputs[2] == s.elevation;
        workout := NewCycling(id, date, at, s.distance.value, s.duration.value, s.elevation.value);
      }
      accepted := true;
      workouts := workouts + [workout];
      SetLocalStorage();
    }

    /**
     * `_moveToPopup`: a click outside any workout entry does nothing; a click
     * on an entry recentres the map on the first workout with that entry's id.
     * The source dereferences the lookup result unchecked, so the id must be
     * in the list.
     */
    method MoveToPopup(target: Option<string>) returns (view: Option<View>)
      requires target.Some? ==> exists i :: 0 <= i < |workouts| && workouts[i].id == target.value
      ensures target.None? <==> view.None?
      ensures view.Some? ==> view.value.zoom == MapZoom
      ensures view.Some? ==> exists i :: && 0 <= i < |workouts|
                                         && workouts[i].id == target.value
                                         && view.value.center == workouts[i].coords
                                         && forall j :: 0 <= j < i ==> workouts[j].id != target.value
    {
      if target.None? {
        return None;
      }
      var workout := FindById(workouts, target.value);
      view := Some(View(workout.value.coords, MapZoom));
    }

    /** `Workout.click` on the record at position `i` of the list. */
    method Click(i: nat)
      requires i < |workouts|
      modifies this
      ensures |workouts| == |old(workouts)| && stored == old(stored)
      ensures workouts[i].clicks == old(workouts[i].clicks) + 1
      ensures workouts[i] == old(workouts[i]).(clicks := workouts[i].clicks)
      ensures forall j :: 0 <= j < |workouts| && j != i ==> workouts[j] == old(workouts[j])
      ensures AllConsistent(old(workouts)) ==> AllConsistent(workouts)
    {
      var w := workouts[i];
      workouts := workouts[i := w.(clicks := w.clicks + 1)];
    }

    /** `reset`: removes the stored entry; the page reload is `RestartAfterReset`. */
    method Reset()
      modifies this
      ensures stored == None && workouts == old(workouts)
    {
      stored := None;
    }
  }

  /** `reset()` followed by the page reload it triggers: the new app starts with no workouts. */
  method RestartAfterReset(app: App) returns (next: App)
    modifies app
    ensures fresh(next) && next.workouts == [] && next.stored == None
  {
    app.Reset();
    next := new App(app.stored);
  }

  /** Records written by an accepted submission come back unchanged on the next page load. */
  method ReloadAfterSubmit(app: App, s: Submission, at: Coords, id: string, date: Date) returns (next: App)
    requires Accepts(s)
    modifies app
    ensures fresh(next) && next.workouts == app.workouts
    ensures |next.workouts| > 0 && next.workouts[|next.workouts| - 1] == Construct(s, at, id, date)
  {
    var accepted := app.NewWorkout(s, at, id, date);
    next := new App(app.stored);
  }
}
