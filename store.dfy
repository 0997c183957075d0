/** The entity types, the seed data and the session store of the app
    (`client/src/lib/store.ts`). */
module Store {
  import opened Common

  /** A user is exactly one of the two roles. */
  datatype UserRole = Client | Trainer

  datatype Metrics = Metrics(height: int, weight: int, age: int)

  datatype User = User(
    id: string,
    name: string,
    email: string,
    role: UserRole,
    avatar: Option<string>,
    goals: Option<seq<string>>,
    metrics: Option<Metrics>)

  datatype WorkoutStatus = Pending | Completed | Missed

  /** `sets` is a JavaScript number; every value the app creates is a
      non-negative integer, so it is a `nat` here. */
  datatype Exercise = Exercise(
    name: string,
    sets: nat,
    reps: string,
    weight: Option<string>,
    rest: Option<string>)

  /** `date` is the `YYYY-MM-DD` calendar-day string. */
  datatype Workout = Workout(
    id: string,
    title: string,
    date: string,
    status: WorkoutStatus,
    exercises: seq<Exercise>)

  /** `timestamp` is kept as milliseconds since the epoch, the number the
      app turns into an ISO string. */
  datatype Message = Message(
    id: string,
    senderId: string,
    receiverId: string,
    text: string,
    timestamp: int)

  /** `user?.role === "trainer"`: false for a missing user. */
  predicate IsTrainerUser(u: Option<User>)
  {
    u.Some? && u.value.role == Trainer
  }

  // ---------------------------------------------------------------- seed data

  const ClientAvatar: string := "https://images.unsplash.com/photo-1535713875002-d1d0cf377fde?auto=format&fit=crop&w=100&q=80"
  const TrainerAvatar: string := "https://images.unsplash.com/photo-1438761681033-6461ffad8d80?auto=format&fit=crop&w=100&q=80"

  function CurrentUser(): (u: User)
    ensures u.role == Client && u.id == "u1"
  {
    User("u1", "Alex Client", "alex@example.com", Client,
         Some(ClientAvatar),
         Some(["Build Muscle", "Improve Stamina"]),
         Some(Metrics(180, 75, 28)))
  }

  function TrainerUser(): (u: User)
    ensures u.role == Trainer && u.id == "t1"
    ensures u.id != CurrentUser().id
  {
    User("t1", "Coach Sarah", "sarah@trainio.com", Trainer,
         Some(TrainerAvatar),
         None, None)
  }

  /** No two workouts share an id. */
  predicate DistinctIds(ws: seq<Workout>)
  {
    forall i, j :: 0 <= i < j < |ws| ==> ws[i].id != ws[j].id
  }

  /** Every exercise of every workout has at least one set. */
  predicate AllExercisesHaveSets(ws: seq<Workout>)
  {
    forall i, k :: 0 <= i < |ws| && 0 <= k < |ws[i].exercises| ==> ws[i].exercises[k].sets >= 1
  }

  /** The three seeded workouts; their dates are computed from the clock, so
      today's, tomorrow's and yesterday's date strings are parameters. */
  function MockWorkouts(today: string, tomorrow: string, yesterday: string): (ws: seq<Workout>)
    ensures |ws| == 3
    ensures DistinctIds(ws)
    ensures AllExercisesHaveSets(ws)
    ensures ws[0].date == today && ws[0].status == Pending
    ensures ws[1].date == tomorrow && ws[1].status == Pending
    ensures ws[2].date == yesterday && ws[2].status == Completed
  {
    [ Workout("w1", "Upper Body Power", today, Pending, [
        Exercise("Bench Press", 4, "8-10", Some("60kg"), Some("90s")),
        Exercise("Pull Ups", 3, "Max", None, Some("60s")),
        Exercise("Shoulder Press", 3, "12", Some("20kg"), Some("60s"))]),
      Workout("w2", "Leg Day", tomorrow, Pending, [
        Exercise("Squats", 5, "5", Some("100kg"), Some("120s")),
        Exercise("Lunges", 3, "12/leg", Some("20kg"), Some("60s"))]),
      Workout("w3", "Cardio & Core", yesterday, Completed, [
        Exercise("Treadmill Run", 1, "20 mins", None, Some("0")),
        Exercise("Plank", 3, "60s", None, Some("30s"))]) ]
  }

  /** Messages are in chronological order when their timestamps strictly increase. */
  predicate Chronological(ms: seq<Message>)
  {
    forall i, j :: 0 <= i < j < |ms| ==> ms[i].timestamp < ms[j].timestamp
  }

  /** The three seeded messages, 10, 9 and 8 million ms before `now`. */
  function MockMessages(now: int): (ms: seq<Message>)
    ensures |ms| == 3
    ensures Chronological(ms)
    ensures forall i :: 0 <= i < |ms| ==> ms[i].timestamp < now
  {
    [ Message("m1", "t1", "u1", "Hey Alex! How was the workout yesterday?", now - 10000000),
      Message("m2", "u1", "t1", "It was intense! Loved the core finisher.", now - 9000000),
      Message("m3", "t1", "u1", "Great to hear. I've updated your plan for next week.", now - 8000000) ]
  }

  // ---------------------------------------------------------------- the store

  /** The session store: the logged-in user (or none) and the flag derived
      from its role. `setUser` writes both fields in one update, so the flag
      always agrees with the user. */
  class AppStore {
    var user: Option<User>
    var isTrainer: bool

    ghost predicate Valid()
      reads this
    {
      isTrainer == IsTrainerUser(user)
    }

    /** The store starts logged out. */
    constructor ()
      ensures Valid()
      ensures user == None && !isTrainer
    {
      user := None;
      isTrainer := false;
    }

    method SetUser(u: Option<User>)
      modifies this
      ensures Valid()
      ensures user == u
      ensures isTrainer <==> u.Some? && u.value.role == Trainer
      ensures u.None? ==> !isTrainer
    {
      user, isTrainer := u, IsTrainerUser(u);
    }
  }
}
