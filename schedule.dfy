/** The schedule screen (`client/src/pages/schedule.tsx`): the event list
    built from the workouts plus two calls, and the events of the day picked
    on the calendar. Calendar days are numbered (local days since the
    epoch); how a date string or an instant maps to its local day is the
    parameter `dayOf`. */
module Schedule {
  import opened Common
  import opened Store

  datatype EventKind = WorkoutEvent | CallEvent

  datatype Event = Event(id: string, title: string, day: int, kind: EventKind, time: string)

  /** One workout's entry on the calendar. */
  function WorkoutEntry(w: Workout, dayOf: string -> int): Event
  {
    Event(w.id, w.title, dayOf(w.date), WorkoutEvent, "10:00 AM")
  }

  function WorkoutEntries(ws: seq<Workout>, dayOf: string -> int): (r: seq<Event>)
    ensures |r| == |ws|
    ensures forall i :: 0 <= i < |ws| ==> r[i] == WorkoutEntry(ws[i], dayOf)
  {
    if ws == [] then [] else [WorkoutEntry(ws[0], dayOf)] + WorkoutEntries(ws[1..], dayOf)
  }

  /** `events`: a workout event per workout, in order, then the check-in
      call today and the weekly review two days on. */
  function Events(ws: seq<Workout>, dayOf: string -> int, today: int): (r: seq<Event>)
    ensures |r| == |ws| + 2
    ensures forall i :: 0 <= i < |ws| ==>
              && r[i].id == ws[i].id && r[i].title == ws[i].title
              && r[i].day == dayOf(ws[i].date)
              && r[i].kind == WorkoutEvent && r[i].time == "10:00 AM"
    ensures r[|ws|] == Event("c1", "Check-in Call", today, CallEvent, "02:00 PM")
    ensures r[|ws| + 1] == Event("c2", "Weekly Review", today + 2, CallEvent, "04:00 PM")
  {
    WorkoutEntries(ws, dayOf)
      + [Event("c1", "Check-in Call", today, CallEvent, "02:00 PM"),
         Event("c2", "Weekly Review", today + 2, CallEvent, "04:00 PM")]
  }

  /** The workout events are exactly the first `|ws|`; the calls are the two last. */
  lemma EventKinds(ws: seq<Workout>, dayOf: string -> int, today: int)
    ensures forall i :: 0 <= i < |ws| + 2 ==>
              (Events(ws, dayOf, today)[i].kind == WorkoutEvent <==> i < |ws|)
  {
  }

  /** `e.date.toDateString() === date?.toDateString()`: with no date picked
      the right-hand side is `undefined`, which no date string equals. */
  predicate OnSelectedDay(e: Event, selected: Option<int>)
  {
    selected.Some? && e.day == selected.value
  }

  /** `selectedDateEvents`: the events on the picked day, in list order. */
  function SelectedDateEvents(events: seq<Event>, selected: Option<int>): (r: seq<Event>)
    ensures forall e :: e in r <==> e in events && selected.Some? && e.day == selected.value
    ensures forall e :: multiset(r)[e] == if OnSelectedDay(e, selected) then multiset(events)[e] else 0
    ensures IsSubsequence(r, events)
    ensures selected.None? ==> r == []
  {
    FilterIsSubsequence((e: Event) => OnSelectedDay(e, selected), events);
    FilterMultiset((e: Event) => OnSelectedDay(e, selected), events);
    var r := Filter((e: Event) => OnSelectedDay(e, selected), events);
    assert forall k :: 0 <= k < |r| ==> r[k] in r;
    r
  }

  /** Picking today shows the check-in call, and picking two days on shows
      the weekly review. */
  lemma CallsShownOnTheirDays(ws: seq<Workout>, dayOf: string -> int, today: int)
    ensures Event("c1", "Check-in Call", today, CallEvent, "02:00 PM")
              in SelectedDateEvents(Events(ws, dayOf, today), Some(today))
    ensures Event("c2", "Weekly Review", today + 2, CallEvent, "04:00 PM")
              in SelectedDateEvents(Events(ws, dayOf, today), Some(today + 2))
  {
    var es := Events(ws, dayOf, today);
    assert es[|ws|] in es && es[|ws| + 1] in es;
  }

  /** A workout is listed on the day its date falls on. */
  lemma WorkoutShownOnItsDay(ws: seq<Workout>, dayOf: string -> int, today: int, i: nat)
    requires i < |ws|
    ensures WorkoutEntry(ws[i], dayOf) in SelectedDateEvents(Events(ws, dayOf, today), Some(dayOf(ws[i].date)))
  {
    var es := Events(ws, dayOf, today);
    assert es[i] == WorkoutEntry(ws[i], dayOf) && es[i] in es;
  }

  datatype Icon = Dumbbell | Video

  /** The badge: a dumbbell for a workout, a camera for anything else. */
  function EventIcon(e: Event): (icon: Icon)
    ensures icon == Dumbbell <==> e.kind == WorkoutEvent
    ensures icon == Video <==> e.kind != WorkoutEvent
  {
    if e.kind == WorkoutEvent then Dumbbell else Video
  }
}
