# Trainio client core, in Dafny

A model of the client side of the Trainio fitness app, a React front end with
the following parts:

- a session store holding the logged-in user and a derived "is trainer" flag;
- a router that gates pages by session and role;
- a login screen;
- the shared navigation frame;
- screens that list, summarise and schedule workouts;
- a full-screen workout tracker with a clock and per-set checkboxes;
- a chat screen.

Each source file is one module:

| module | source |
|---|---|
| `Store` | `client/src/lib/store.ts` |
| `Routes` | `client/src/App.tsx` |
| `Auth` | `client/src/pages/auth.tsx` |
| `Layout` | `client/src/components/Layout.tsx` |
| `Workouts` | `client/src/pages/workouts.tsx` |
| `ClientDashboard` | `client/src/pages/client-dashboard.tsx` |
| `ActiveWorkout` | `client/src/pages/active-workout.tsx` |
| `Chat` | `client/src/pages/chat.tsx` |
| `Schedule` | `client/src/pages/schedule.tsx` |

Two helper modules hold the JavaScript vocabulary the screens share:

- `Common`: `Option`, `Array.prototype.filter`/`find`, and `a || b` on optional strings.
- `Text`: decimal rendering of whole numbers (what `Number.prototype.toString` gives for the small non-negative integers the screens format), `padStart`, and `IndexOf`, the first position of a character, from which the greeting's `split(' ')[0]` is computed.

Anything a screen changes step by step is a class with `modifies` clauses. This covers:

- the store;
- the login screen's loading flag and pending timer;
- the sidebar's mobile flag;
- the workout dialog's selection;
- the tracker's clock, pause flag and ticked sets;
- the chat screen's input and message list.

Navigation (`setLocation`, `window.location.href`) is the `dest` value a
handler returns. The current day, the clock and a calendar date's local
day are parameters. Each timer callback is a method the caller invokes:

- `LoginPage.TimerFires` for the 800 ms login delay;
- `WorkoutTracker.Tick` for the one-second interval.

## Model

| member | source | states |
|---|---|---|
| Store.IsTrainerUser | client/src/lib/store.ts:115 | `user?.role === "trainer"`: a present user whose role is trainer; false without a user |
| Store.CurrentUser | client/src/lib/store.ts:43-55 | the seeded client account has id "u1" and role client |
| Store.TrainerUser | client/src/lib/store.ts:57-63 | the seeded trainer has id "t1", role trainer, and an id different from the client's |
| Store.MockWorkouts | client/src/lib/store.ts:65-97 | three workouts with distinct ids and at least one set per exercise: today's and tomorrow's pending, yesterday's completed |
| Store.MockMessages | client/src/lib/store.ts:99-103 | three seeded messages in strictly increasing time order, all before now |
| Store.AppStore.constructor | client/src/lib/store.ts:112-114 | the store starts logged out with the flag off, and the flag agrees with the user |
| Store.AppStore.SetUser | client/src/lib/store.ts:115 | the user is replaced, and `isTrainer` holds exactly when the new user is a trainer, so the invariant is kept |
| Routes.RoleHome | client/src/App.tsx:27 | a trainer's home is "/trainer" and a client's is "/dashboard", each in both directions |
| Routes.ProtectedRoute | client/src/App.tsx:19-35 | no session redirects to "/auth"; a wrong role redirects to the session's own home; otherwise the page renders inside Layout |
| Routes.ActiveWorkoutPath | client/src/App.tsx:63 | the tracker's path `/workout/:id/active` for an id, the one definition every navigation to the tracker uses |
| Routes.ActiveWorkoutId | client/src/App.tsx:63 | a match of "/workout/:id/active" captures a non-empty id without "/" and the path is rebuilt from it |
| Routes.ActiveWorkoutPathMatches | client/src/App.tsx:63 | every such id is captured back from its path |
| Routes.Resolve | client/src/App.tsx:37-84 | a page inside Layout renders only for a session; each dashboard renders only for its own role; every redirect goes to the session's home, or to "/auth" without a session |
| Routes.HomePage | client/src/App.tsx:50-56 | a role's dashboard page: the trainer dashboard for a trainer, the client dashboard otherwise |
| Routes.RoleHomeRenders | client/src/App.tsx:50-56 | a user's home path renders that role's dashboard inside Layout |
| Routes.LoggedOutRedirectsToAuth | client/src/App.tsx:22-24 | without a session, "/" and every protected path redirect to "/auth" |
| Routes.RootRedirect | client/src/App.tsx:45-47 | "/" redirects a session to its role home and everyone else to "/auth" |
| Routes.ActiveWorkoutUngated | client/src/App.tsx:62-63 | the tracker path renders full screen with or without a session |
| Routes.RedirectTargetRenders | client/src/App.tsx:22-28 | no redirect loop: a redirect's target renders for the same session |
| Auth.LoginUser | client/src/pages/auth.tsx:23 | the account logged in has the chosen role and is one of the two seeded accounts |
| Auth.LoginLandingRenders | client/src/pages/auth.tsx:26 | the path navigated to after login renders that role's dashboard for the new session |
| Auth.LoginPage.constructor | client/src/pages/auth.tsx:17 | the screen starts idle with nothing scheduled |
| Auth.LoginPage.SubmitEnabled | client/src/pages/auth.tsx:87-103 | both submit buttons are enabled exactly while the screen is not loading |
| Auth.LoginPage.Submit | client/src/pages/auth.tsx:19-22 | a submit while idle starts loading and schedules the chosen role; while loading the disabled buttons do nothing |
| Auth.LoginPage.TimerFires | client/src/pages/auth.tsx:22-27 | the scheduled role's account becomes the session user, loading ends, and the returned destination is the role home, which renders |
| Layout.EffectiveRole | client/src/components/Layout.tsx:25 | the session's role, or client without a session |
| Layout.NavItems | client/src/components/Layout.tsx:27-34 | six items; the first is Dashboard pointing at the role home; no two items share an href |
| Layout.IsActive | client/src/components/Layout.tsx:52 | an item is highlighted when the location equals its href |
| Layout.AtMostOneActive | client/src/components/Layout.tsx:51-52 | at most one navigation item is highlighted for any location |
| Layout.NavLinksRender | client/src/components/Layout.tsx:54 | every link shown to a session renders a page inside Layout for that session |
| Layout.Sidebar.constructor | client/src/components/Layout.tsx:23 | the mobile menu starts closed |
| Layout.Sidebar.SetMobileOpen | client/src/components/Layout.tsx:106 | the mobile menu flag takes the sheet's new state |
| Layout.Sidebar.ClickNavItem | client/src/components/Layout.tsx:54-62 | clicking an item closes the mobile menu and navigates to its href |
| Layout.Sidebar.Logout | client/src/components/Layout.tsx:36-39 | the session is cleared with the flag off, and "/auth" renders the login screen |
| Workouts.ActiveWorkouts | client/src/pages/workouts.tsx:33 | the Upcoming tab holds exactly the pending workouts, in list order, each as many times as in the list |
| Workouts.CompletedWorkouts | client/src/pages/workouts.tsx:34 | the History tab holds exactly the completed workouts, in list order, each as many times as in the list |
| Workouts.TabsDisjoint | client/src/pages/workouts.tsx:33-34 | the tabs share no workout, and a missed workout is in neither |
| Workouts.TabsPartition | client/src/pages/workouts.tsx:33-34 | upcoming, history and missed lengths add up to the whole list |
| Workouts.ExerciseSummary | client/src/pages/workouts.tsx:60 | the names joined with ", ": empty for no exercises, starting with the first name, and as long as the names plus two characters per separator |
| Workouts.ExerciseSummaryAppend | client/src/pages/workouts.tsx:60 | joining two non-empty exercise lists puts exactly one ", " between their summaries |
| Workouts.RestLabel | client/src/pages/workouts.tsx:170 | the rest cell is never empty: the given rest when non-empty, else "60s" |
| Workouts.CanCreateWorkout | client/src/pages/workouts.tsx:100 | "Create Workout" is shown for a trainer session only |
| Workouts.CreateButtonMatchesStore | client/src/pages/workouts.tsx:100-102 | "Create Workout" is shown exactly when the store's `isTrainer` flag is set |
| Workouts.CanStart | client/src/pages/workouts.tsx:180 | "Start Workout" is offered only for a selected pending workout |
| Workouts.WorkoutDialog.constructor | client/src/pages/workouts.tsx:31 | nothing is selected and the dialog is closed |
| Workouts.WorkoutDialog.IsOpen | client/src/pages/workouts.tsx:134 | the dialog is open exactly while a workout is selected |
| Workouts.WorkoutDialog.Select | client/src/pages/workouts.tsx:41 | clicking a card selects it and opens the dialog |
| Workouts.WorkoutDialog.OnOpenChange | client/src/pages/workouts.tsx:134 | closing clears the selection; opening leaves it alone |
| Workouts.WorkoutDialog.Close | client/src/pages/workouts.tsx:179 | the Close button clears the selection and closes the dialog |
| Workouts.WorkoutDialog.StartWorkout | client/src/pages/workouts.tsx:180-185 | a destination exists exactly for a pending selection; it is that workout's tracker path, which renders full screen |
| ClientDashboard.TodayWorkout | client/src/pages/client-dashboard.tsx:19 | none exactly when no workout is dated today; otherwise the first workout dated today |
| ClientDashboard.TodayWorkoutIgnoresStatus | client/src/pages/client-dashboard.tsx:19 | the first workout dated today is chosen whatever its status |
| ClientDashboard.IsUpcoming | client/src/pages/client-dashboard.tsx:20 | a workout is upcoming when it is pending and its id differs from today's session, if there is one |
| ClientDashboard.UpcomingWorkouts | client/src/pages/client-dashboard.tsx:20 | exactly the pending workouts whose id differs from today's session, in list order and each as many times as in the list; today's session is never among them |
| ClientDashboard.UpcomingWithoutToday | client/src/pages/client-dashboard.tsx:20 | with no session today, Upcoming equals the workouts screen's Upcoming tab |
| ClientDashboard.DashboardOfThree | client/src/pages/client-dashboard.tsx:19-20 | for a plan shaped like the seed data, today's session is the first workout and Upcoming is the second alone |
| ClientDashboard.SeedDashboard | client/src/pages/client-dashboard.tsx:19-20 | on the seed data, today's session is "Upper Body Power" and Upcoming holds only "Leg Day" |
| ClientDashboard.FirstName | client/src/pages/client-dashboard.tsx:27 | the longest prefix of the name without a space |
| ClientDashboard.GreetingName | client/src/pages/client-dashboard.tsx:27 | the session user's first name, or nothing without a session |
| ClientDashboard.WeightLabel | client/src/pages/client-dashboard.tsx:110 | the weight cell is never empty: the given weight when non-empty, else "Bodyweight" |
| Text.Digits | client/src/pages/active-workout.tsx:55 | `toString` on a natural gives decimal digits with no leading zero, one digit below 10 and two below 100 |
| Text.ParseDigits | client/src/pages/active-workout.tsx:55 | reading the decimal digits back gives the number |
| Text.PadStart | client/src/pages/active-workout.tsx:55 | `padStart` prepends fill characters up to the width and keeps the string as its suffix |
| Text.IndexOf | client/src/pages/client-dashboard.tsx:27 | the first position of the character, or the length when it is absent |
| ActiveWorkout.TwoDigits | client/src/pages/active-workout.tsx:55 | `n.toString().padStart(2, '0')` |
| ActiveWorkout.TwoDigitsShape | client/src/pages/active-workout.tsx:55 | a one-digit number gains a leading "0"; a longer rendering is kept as it is |
| ActiveWorkout.TwoDigitsFacts | client/src/pages/active-workout.tsx:55 | a padded field is all digits, at least two long, exactly two long below 100, and reads back as the number |
| ActiveWorkout.FormatTime | client/src/pages/active-workout.tsx:52-56 | "mm:ss" with a colon three from the end; exactly five characters below 100 minutes; the seconds field reads as seconds mod 60 |
| ActiveWorkout.FormatTimeRoundTrip | client/src/pages/active-workout.tsx:52-56 | reading the clock back gives the elapsed seconds |
| ActiveWorkout.TotalSets | client/src/pages/active-workout.tsx:60 | the summed sets are at least any one exercise's sets |
| ActiveWorkout.TotalSetsAtLeastExercises | client/src/pages/active-workout.tsx:60 | with at least one set per exercise, the total is at least the number of exercises |
| ActiveWorkout.SetKey | client/src/pages/active-workout.tsx:64 | the checkbox key: the exercise index, "-", the set index |
| ActiveWorkout.SetKeyDecodes | client/src/pages/active-workout.tsx:64 | the digits before the key's first "-" read as the exercise index, those after it as the set index |
| ActiveWorkout.SetKeyInjective | client/src/pages/active-workout.tsx:64 | different checkboxes have different keys |
| ActiveWorkout.RowKeys | client/src/pages/active-workout.tsx:146-147 | one exercise's row has at most as many keys as sets, and holds the key of each set |
| ActiveWorkout.AllKeys | client/src/pages/active-workout.tsx:146-147 | every rendered checkbox's key is present, and there are at most as many keys as total sets |
| ActiveWorkout.Toggled | client/src/pages/active-workout.tsx:63-72 | the key flips membership, every other key is unchanged, and the size moves by one |
| ActiveWorkout.ToggledTwice | client/src/pages/active-workout.tsx:63-72 | toggling the same checkbox twice restores the set |
| ActiveWorkout.CompletedWithinTotal | client/src/pages/active-workout.tsx:107 | ticking only rendered checkboxes never exceeds the total |
| ActiveWorkout.LookupWorkout | client/src/pages/active-workout.tsx:34 | none exactly when no workout has the id; otherwise the first listed workout with that id |
| ActiveWorkout.WorkoutTracker.constructor | client/src/pages/active-workout.tsx:34-38 | the tracker opens running at 0 seconds with nothing ticked, on the looked-up workout |
| ActiveWorkout.WorkoutTracker.Tick | client/src/pages/active-workout.tsx:42-50 | one interval step adds a second only while active |
| ActiveWorkout.WorkoutTracker.TogglePause | client/src/pages/active-workout.tsx:117 | pause/resume flips the running flag and keeps the time |
| ActiveWorkout.WorkoutTracker.ToggleSet | client/src/pages/active-workout.tsx:63-72 | the ticked set becomes its old value with that checkbox's key toggled; only rendered keys stay ticked |
| ActiveWorkout.WorkoutTracker.SetsProgress | client/src/pages/active-workout.tsx:107 | the header's "done of total": done is the ticked count, total the summed sets, and done never exceeds total |
| Chat.TrimStart | client/src/pages/chat.tsx:24 | removes exactly the leading white space: a suffix of the input that starts with a non-blank character or is empty |
| Chat.TrimEnd | client/src/pages/chat.tsx:24 | removes exactly the trailing white space: a prefix of the input that ends with a non-blank character or is empty |
| Chat.Trim | client/src/pages/chat.tsx:24 | `trim` never lengthens the input, and a non-empty result neither starts nor ends with white space |
| Chat.TrimIsSlice | client/src/pages/chat.tsx:24 | the trimmed text is a slice of the input with only white space cut on either side |
| Chat.TrimEmptyIffBlank | client/src/pages/chat.tsx:24 | the trimmed input is empty exactly when the input is white space only |
| Chat.SendBlocked | client/src/pages/chat.tsx:24 | the send guard `!messageInput.trim()` holds exactly for white-space-only input |
| Chat.Contacts | client/src/pages/chat.tsx:17-20 | two contacts with distinct ids |
| Chat.SenderId | client/src/pages/chat.tsx:28 | the session user's id when non-empty; "u1" without a session or when the id is empty; never empty |
| Chat.NewMessage | client/src/pages/chat.tsx:26-32 | a sent message goes from the sender id to the active chat, holds the raw input, and is stamped and named by the send time |
| Chat.IsMine | client/src/pages/chat.tsx:116 | a message is drawn as the user's own when its sender id is the session user's id; never without a session |
| Chat.SentMessageIsMine | client/src/pages/chat.tsx:116 | a message sent by a session is drawn as that session's own |
| Chat.ChatScreen.constructor | client/src/pages/chat.tsx:13-15 | the screen opens on "t1" with an empty input and the seeded messages |
| Chat.ChatScreen.SelectContact | client/src/pages/chat.tsx:54 | clicking a contact makes it the active chat |
| Chat.ChatScreen.SetInput | client/src/pages/chat.tsx:146 | the input holds the typed text |
| Chat.ChatScreen.SendMessage | client/src/pages/chat.tsx:22-36 | white-space-only input changes nothing; otherwise exactly one message is appended and the input is cleared |
| Schedule.WorkoutEntries | client/src/pages/schedule.tsx:13-19 | one event per workout, in order |
| Schedule.Events | client/src/pages/schedule.tsx:12-22 | workout events keep each workout's id, title and day, at "10:00 AM"; then "Check-in Call" today at "02:00 PM" and "Weekly Review" two days on at "04:00 PM" |
| Schedule.EventKinds | client/src/pages/schedule.tsx:12-22 | the workout events are exactly the first ones, one per workout |
| Schedule.OnSelectedDay | client/src/pages/schedule.tsx:25 | an event is on the picked day when a day is picked and the event falls on it |
| Schedule.SelectedDateEvents | client/src/pages/schedule.tsx:24-26 | exactly the events on the selected day, in list order and each as many times as in the list; nothing when no day is selected |
| Schedule.CallsShownOnTheirDays | client/src/pages/schedule.tsx:20-26 | today shows the check-in call, and two days on shows the weekly review |
| Schedule.WorkoutShownOnItsDay | client/src/pages/schedule.tsx:13-26 | each workout is listed on the day its date falls on |
| Schedule.EventIcon | client/src/pages/schedule.tsx:63-66 | the dumbbell exactly for workout events, the video icon for every other kind |
| Common.Filter | client/src/pages/workouts.tsx:33 | `filter` keeps exactly the elements satisfying the predicate, and is never longer than the input |
| Common.Find | client/src/pages/client-dashboard.tsx:19 | `find` gives none exactly when nothing matches; otherwise the first match |
| Common.OrElse | client/src/pages/workouts.tsx:170 | JavaScript's or-fallback on an optional string gives the value when present and non-empty, else the fallback |

## Left out

- Time zones and daylight saving. Dates are modelled as follows:
  - a workout's `YYYY-MM-DD` date is the string the store computes;
  - the calendar day of a date is the parameter `dayOf`;
  - "now" and "today" are parameters.

  In schedule.tsx, `new Date(w.date)` reads the date as UTC midnight, while `toDateString` uses local time. West of UTC, a workout can therefore appear on the previous local day. The model leaves that mapping to `dayOf`.
  - `Date.now() + 2 days` is modelled as two calendar days later, which ignores daylight-saving shifts.
- The calendar's selected date is the `selected` parameter of `SelectedDateEvents`, not a field of a screen class. The calendar widget that sets it is not modelled.
- Route matching is exact string equality. The router library also matches case-insensitively and tolerates trailing slashes.
- Routes.ActiveWorkoutId: states that it rebuilds the path from a captured id, but not the converse for paths of other shapes. `ActiveWorkoutPathMatches` covers the converse for well-formed ids.
- `Message.timestamp` is an integer of epoch milliseconds, not the ISO string the app formats from it. `NewMessage` uses the send time directly.
- The progress bar's percentage (`completedSets.size / totalSets * 100`) is floating point, including NaN for a workout with no sets. It is not modelled. `SetsProgress` gives the two integers it is computed from.
- `currentExerciseIndex` never changes in the source and only styles a card, so it is not modelled.
- The tracker's Finish and Quit buttons only navigate to "/workouts", so they are not modelled.
- The chat screen shows every message whatever contact is selected. The model keeps a single list accordingly, with no per-contact filtering.
- The message list's rendering, the search box and avatars are presentation only.
- React rendering, effects and unmounting are not modelled. In particular, clearing the interval on unmount is left out: `Tick` is a step the caller takes.
- Page contents with no logic of their own are not modelled: the nutrition, profile and trainer-dashboard pages, and the static parts of every screen. The API wrapper `api/index.ts` is not part of this model either.
- Text.Digits: JavaScript numbers are doubles. Their width is not modelled: `toString` switches to exponent notation from 10^21, and a counter stops growing at 2^53. `time`, `sets` and the indices are unbounded naturals here.
- ActiveWorkout.AllKeys: states that there are at most as many keys as total sets, not exactly as many. That is all the progress bound needs.
- Both submit buttons' `disabled={isLoading}` are modelled as a no-op while loading. A browser would not deliver the click at all.
- The white space that `trim` removes is given without a Unicode category lookup, as the fixed list of code points that `String.prototype.trim` removes.
