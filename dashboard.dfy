/** The client dashboard (`client/src/pages/client-dashboard.tsx`): today's
    session, the upcoming list, the greeting and the weight column. */
module ClientDashboard {
  import opened Common
  import opened Store
  import Text
  import Workouts

  /** The first workout in list order dated `today` (a `YYYY-MM-DD` string),
      whatever its status. */
  function TodayWorkout(ws: seq<Workout>, today: string): (r: Option<Workout>)
    ensures r.None? <==> forall i :: 0 <= i < |ws| ==> ws[i].date != today
    ensures r.Some? ==> r.value.date == today
    ensures r.Some? ==> exists i :: 0 <= i < |ws| && ws[i] == r.value && forall j :: 0 <= j < i ==> ws[j].date != today
  {
    Find((w: Workout) => w.date == today, ws)
  }

  /** The first workout dated today is chosen even when it is already
      completed or missed. */
  lemma TodayWorkoutIgnoresStatus(ws: seq<Workout>, today: string, i: nat)
    requires i < |ws| && ws[i].date == today
    requires forall j :: 0 <= j < i ==> ws[j].date != today
    ensures TodayWorkout(ws, today) == Some(ws[i])
  {
    var r := TodayWorkout(ws, today);
    var k :| 0 <= k < |ws| && ws[k] == r.value && forall j :: 0 <= j < k ==> ws[j].date != today;
  }

  /** Is `w` listed under "Upcoming" next to today's session `t`? In
      JavaScript `w.id !== undefined` holds for every workout, so without a
      session today only the status counts. */
  predicate IsUpcoming(w: Workout, t: Option<Workout>)
  {
    w.status == Pending && (t.None? || w.id != t.value.id)
  }

  /** The pending workouts other than today's session (compared by id), in
      list order. */
  function UpcomingWorkouts(ws: seq<Workout>, today: string): (r: seq<Workout>)
    ensures forall w :: w in r <==> w in ws && IsUpcoming(w, TodayWorkout(ws, today))
    ensures forall w :: multiset(r)[w] == if IsUpcoming(w, TodayWorkout(ws, today)) then multiset(ws)[w] else 0
    ensures forall w :: w in r ==> w.status == Pending
    ensures TodayWorkout(ws, today).Some? ==> TodayWorkout(ws, today).value !in r
    ensures IsSubsequence(r, ws)
  {
    var t := TodayWorkout(ws, today);
    FilterIsSubsequence((w: Workout) => IsUpcoming(w, t), ws);
    FilterMultiset((w: Workout) => IsUpcoming(w, t), ws);
    Filter((w: Workout) => IsUpcoming(w, t), ws)
  }

  /** Without a session today, "Upcoming" is exactly the pending list of the
      workouts screen. */
  lemma UpcomingWithoutToday(ws: seq<Workout>, today: string)
    requires TodayWorkout(ws, today).None?
    ensures UpcomingWorkouts(ws, today) == Workouts.ActiveWorkouts(ws)
  {
    FilterSamePredicate((w: Workout) => IsUpcoming(w, None), (w: Workout) => w.status == Pending, ws);
  }

  /** A three-workout plan whose first workout is today's and pending, whose
      second is pending on another day and whose third is done: today's
      session is the first and "Upcoming" holds only the second. */
  lemma DashboardOfThree(ws: seq<Workout>, today: string)
    requires |ws| == 3
    requires ws[0].date == today && ws[0].status == Pending
    requires ws[1].date != today && ws[1].status == Pending && ws[1].id != ws[0].id
    requires ws[2].status == Completed
    ensures TodayWorkout(ws, today) == Some(ws[0])
    ensures UpcomingWorkouts(ws, today) == [ws[1]]
  {
    TodayWorkoutIgnoresStatus(ws, today, 0);
    UpcomingOfThree(ws, ws[0]);
  }

  lemma UpcomingOfThree(ws: seq<Workout>, t: Workout)
    requires |ws| == 3
    requires !IsUpcoming(ws[0], Some(t)) && IsUpcoming(ws[1], Some(t)) && !IsUpcoming(ws[2], Some(t))
    ensures Filter((w: Workout) => IsUpcoming(w, Some(t)), ws) == [ws[1]]
  {
    var p := (w: Workout) => IsUpcoming(w, Some(t));
    assert ws == [ws[0]] + [ws[1]] + [ws[2]];
    FilterAppend(p, [ws[0]] + [ws[1]], [ws[2]]);
    FilterAppend(p, [ws[0]], [ws[1]]);
  }

  /** With the seed data and three distinct dates: today's session is "Upper
      Body Power" and "Upcoming" holds only "Leg Day". */
  lemma SeedDashboard(today: string, tomorrow: string, yesterday: string)
    requires today != tomorrow && today != yesterday
    ensures TodayWorkout(MockWorkouts(today, tomorrow, yesterday), today) == Some(MockWorkouts(today, tomorrow, yesterday)[0])
    ensures UpcomingWorkouts(MockWorkouts(today, tomorrow, yesterday), today) == [MockWorkouts(today, tomorrow, yesterday)[1]]
    ensures MockWorkouts(today, tomorrow, yesterday)[0].title == "Upper Body Power"
    ensures MockWorkouts(today, tomorrow, yesterday)[1].title == "Leg Day"
  {
    DashboardOfThree(MockWorkouts(today, tomorrow, yesterday), today);
  }

  /** `name.split(' ')[0]`: the part of the name before its first space. */
  function FirstName(name: string): (r: string)
    ensures |r| <= |name| && r == name[..|r|]
    ensures ' ' !in r
    ensures |r| < |name| ==> name[|r|] == ' '
  {
    name[..Text.IndexOf(name, ' ')]
  }

  /** The greeting's name; nothing is shown without a session. */
  function GreetingName(user: Option<User>): (r: string)
    ensures user.Some? ==> r == FirstName(user.value.name)
    ensures user.None? ==> r == ""
  {
    if user.Some? then FirstName(user.value.name) else ""
  }

  /** The weight column: `ex.weight || "Bodyweight"`. */
  function WeightLabel(ex: Exercise): (r: string)
    ensures r != ""
    ensures r == "Bodyweight" || Some(r) == ex.weight
    ensures ex.weight.Some? && ex.weight.value != "" ==> r == ex.weight.value
  {
    OrElse(ex.weight, "Bodyweight")
  }
}
