/** The workouts screen (`client/src/pages/workouts.tsx`): the upcoming and
    history tabs, the card summary, the detail dialog and its buttons. */
module Workouts {
  import opened Common
  import opened Store
  import opened Routes

  /** The "Upcoming" tab: the pending workouts, in list order. */
  function ActiveWorkouts(ws: seq<Workout>): (r: seq<Workout>)
    ensures forall w :: w in r <==> w in ws && w.status == Pending
    ensures forall w :: multiset(r)[w] == if w.status == Pending then multiset(ws)[w] else 0
    ensures IsSubsequence(r, ws)
  {
    FilterIsSubsequence((w: Workout) => w.status == Pending, ws);
    FilterMultiset((w: Workout) => w.status == Pending, ws);
    Filter((w: Workout) => w.status == Pending, ws)
  }

  /** The "History" tab: the completed workouts, in list order. */
  function CompletedWorkouts(ws: seq<Workout>): (r: seq<Workout>)
    ensures forall w :: w in r <==> w in ws && w.status == Completed
    ensures forall w :: multiset(r)[w] == if w.status == Completed then multiset(ws)[w] else 0
    ensures IsSubsequence(r, ws)
  {
    FilterIsSubsequence((w: Workout) => w.status == Completed, ws);
    FilterMultiset((w: Workout) => w.status == Completed, ws);
    Filter((w: Workout) => w.status == Completed, ws)
  }

  /** The missed workouts, which neither tab shows. */
  function MissedWorkouts(ws: seq<Workout>): seq<Workout>
  {
    Filter((w: Workout) => w.status == Missed, ws)
  }

  /** The two tabs never share a workout, and a missed workout is in neither. */
  lemma TabsDisjoint(ws: seq<Workout>)
    ensures forall w :: !(w in ActiveWorkouts(ws) && w in CompletedWorkouts(ws))
    ensures forall w: Workout :: w.status == Missed ==> w !in ActiveWorkouts(ws) && w !in CompletedWorkouts(ws)
  {
  }

  /** Every workout is in exactly one of: the upcoming tab, the history tab,
      the missed ones; so the three lengths add up to the whole list. */
  lemma {:induction false} TabsPartition(ws: seq<Workout>)
    ensures |ActiveWorkouts(ws)| + |CompletedWorkouts(ws)| + |MissedWorkouts(ws)| == |ws|
  {
    if ws != [] {
      TabsPartition(ws[1..]);
    }
  }

  /** The card line under the title: the exercise names joined with ", ".
      It is empty for no exercises, starts with the first name, and is the
      names plus two characters per separator long. */
  function ExerciseSummary(exs: seq<Exercise>): (r: string)
    ensures exs == [] ==> r == ""
    ensures exs != [] ==> exs[0].name <= r
    ensures exs != [] ==> |r| == NamesLength(exs) + 2 * (|exs| - 1)
  {
    if exs == [] then ""
    else if |exs| == 1 then exs[0].name
    else exs[0].name + ", " + ExerciseSummary(exs[1..])
  }

  /** Joining two non-empty lists puts one separator between the two summaries. */
  lemma {:induction false} ExerciseSummaryAppend(a: seq<Exercise>, b: seq<Exercise>)
    requires a != [] && b != []
    ensures ExerciseSummary(a + b) == ExerciseSummary(a) + ", " + ExerciseSummary(b)
  {
    var ab := a + b;
    assert ab[0] == a[0] && |ab| > 1;
    if |a| == 1 {
      assert ab[1..] == b;
      assert ExerciseSummary(ab) == a[0].name + ", " + ExerciseSummary(b);
    } else {
      assert ab[1..] == a[1..] + b;
      ExerciseSummaryAppend(a[1..], b);
      var x, y, z := a[0].name + ", ", ExerciseSummary(a[1..]), ExerciseSummary(b);
      assert ExerciseSummary(a) == x + y;
      assert ExerciseSummary(ab) == x + (y + ", " + z);
      assert x + (y + ", " + z) == x + y + ", " + z;
    }
  }

  /** The total length of the names. */
  function NamesLength(exs: seq<Exercise>): nat
  {
    if exs == [] then 0 else |exs[0].name| + NamesLength(exs[1..])
  }

  /** The rest cell: `exercise.rest || "60s"`. */
  function RestLabel(ex: Exercise): (r: string)
    ensures r != ""
    ensures r == "60s" || Some(r) == ex.rest
    ensures ex.rest.Some? && ex.rest.value != "" ==> r == ex.rest.value
  {
    OrElse(ex.rest, "60s")
  }

  /** "Create Workout" is shown only to a trainer session. */
  predicate CanCreateWorkout(user: Option<User>)
  {
    IsTrainerUser(user)
  }

  /** The button guard agrees with the store's `isTrainer` flag. */
  lemma CreateButtonMatchesStore(store: AppStore)
    requires store.Valid()
    ensures CanCreateWorkout(store.user) <==> store.isTrainer
  {
  }

  /** "Start Workout" is offered only for a pending selection. */
  predicate CanStart(selected: Option<Workout>)
  {
    selected.Some? && selected.value.status == Pending
  }

  /** The detail dialog: open exactly while a workout is selected. */
  class WorkoutDialog {
    var selected: Option<Workout>

    constructor ()
      ensures selected == None && !IsOpen()
    {
      selected := None;
    }

    predicate IsOpen()
      reads this
    {
      selected.Some?
    }

    /** Clicking a card selects its workout and opens the dialog. */
    method Select(w: Workout)
      modifies this
      ensures selected == Some(w) && IsOpen()
    {
      selected := Some(w);
    }

    /** The dialog's `onOpenChange`: closing clears the selection, opening
        leaves it alone. */
    method OnOpenChange(open: bool)
      modifies this
      ensures !open ==> selected == None
      ensures open ==> selected == old(selected)
    {
      if !open {
        selected := None;
      }
    }

    /** The Close button. */
    method Close()
      modifies this
      ensures selected == None && !IsOpen()
    {
      selected := None;
    }

    /** The Start Workout button: there is one only for a pending selection,
        and it leads to that workout's full-screen tracker. */
    method StartWorkout(user: Option<User>) returns (dest: Option<string>)
      ensures dest.Some? <==> CanStart(selected)
      ensures dest.Some? ==> dest.value == ActiveWorkoutPath(selected.value.id)
      ensures dest.Some? && selected.value.id != "" && '/' !in selected.value.id ==>
                Resolve(dest.value, user) == Render(ActiveWorkoutPage(selected.value.id), false)
    {
      if CanStart(selected) {
        dest := Some(ActiveWorkoutPath(selected.value.id));
        if selected.value.id != "" && '/' !in selected.value.id {
          ActiveWorkoutUngated(selected.value.id, user);
        }
      } else {
        dest := None;
      }
    }
  }
}
