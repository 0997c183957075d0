/** The full-screen workout tracker (`client/src/pages/active-workout.tsx`):
    the elapsed-time clock, the set checkboxes and the progress count. */
module ActiveWorkout {
  import opened Common
  import opened Store
  import opened Text

  // ---------------------------------------------------------------- the clock

  /** `n.toString().padStart(2, '0')`. */
  function TwoDigits(n: nat): string
  {
    PadStart(Digits(n), 2, '0')
  }

  /** A one-digit rendering gains a leading zero; a longer one is kept as
      it is. */
  lemma TwoDigitsShape(n: nat)
    ensures TwoDigits(n) == if n < 10 then "0" + Digits(n) else Digits(n)
  {
    var d := Digits(n);
    if n < 10 {
      assert |d| == 1;
      assert Repeat('0', 1) == "0";
      assert PadStart(d, 2, '0') == Repeat('0', 1) + d;
    } else {
      assert |d| >= 2;
    }
  }

  lemma TwoDigitsFacts(n: nat)
    ensures AllDigits(TwoDigits(n)) && |TwoDigits(n)| >= 2
    ensures n < 100 <==> |TwoDigits(n)| == 2
    ensures ParseNat(TwoDigits(n)) == n
  {
    var d := Digits(n);
    TwoDigitsShape(n);
    ParseDigits(n);
    if n < 10 {
      ParseLeadingZero(d);
    }
  }

  /** Below 100 the two characters are the tens and the units. */
  lemma TwoDigitsValues(n: nat)
    requires n < 100
    ensures |TwoDigits(n)| == 2
    ensures DigitValue(TwoDigits(n)[0]) == n / 10 && DigitValue(TwoDigits(n)[1]) == n % 10
  {
    var d := Digits(n);
    TwoDigitsShape(n);
    if n < 10 {
      assert TwoDigits(n) == "0" + d;
    } else {
      assert TwoDigits(n) == d == Digits(n / 10) + [DigitChar(n % 10)];
    }
  }

  /** `formatTime`: whole minutes, a colon, then the seconds within the
      minute, each at least two digits. The seconds field is always exactly
      two digits and reads as `seconds % 60`; the minutes are not capped, so
      from 100 minutes on the string grows past five characters. */
  function FormatTime(seconds: nat): (r: string)
    ensures |r| >= 5 && r[|r| - 3] == ':'
    ensures seconds < 6000 <==> |r| == 5
    ensures AllDigits(r[..|r| - 3]) && AllDigits(r[|r| - 2..])
    ensures DigitValue(r[|r| - 2]) * 10 + DigitValue(r[|r| - 1]) == seconds % 60
  {
    var q, rm := seconds / 60, seconds % 60;
    MinuteSplit(seconds);
    TwoDigitsFacts(q);
    TwoDigitsValues(rm);
    var m, s := TwoDigits(q), TwoDigits(rm);
    ClockLayout(m, s);
    m + ":" + s
  }

  lemma MinuteSplit(seconds: nat)
    ensures seconds / 60 * 60 + seconds % 60 == seconds && seconds % 60 < 60
    ensures seconds / 60 < 100 <==> seconds < 6000
  {
  }

  lemma ClockLayout(m: string, s: string)
    requires |s| == 2
    ensures var r := m + ":" + s;
      && |r| == |m| + 3 && r[|r| - 3] == ':'
      && r[..|r| - 3] == m && r[|r| - 2..] == s
      && r[|r| - 2] == s[0] && r[|r| - 1] == s[1]
  {
  }

  /** Reads an `m:ss` clock back as a number of seconds. */
  function ParseTime(t: string): Option<nat>
  {
    ParseTimeAt(t, IndexOf(t, ':'))
  }

  /** Reads `t` as minutes before position `i` and seconds after it. */
  function ParseTimeAt(t: string, i: nat): Option<nat>
  {
    if 0 < i < |t| - 1 && AllDigits(t[..i]) && AllDigits(t[i + 1..]) then
      Some(ParseNat(t[..i]) * 60 + ParseNat(t[i + 1..]))
    else None
  }

  lemma ColonSplit(m: string, sec: string)
    ensures var t := m + [':'] + sec;
      |t| == |m| + 1 + |sec| && t[..|m|] == m && t[|m| + 1..] == sec
  {
    var t := m + [':'] + sec;
    assert t[..|m|] == m;
    assert t[|m| + 1..] == sec;
  }

  lemma ParseTimeAtParts(t: string, i: nat, m: string, sec: string)
    requires 0 < i < |t| - 1 && t[..i] == m && t[i + 1..] == sec
    requires AllDigits(m) && AllDigits(sec)
    ensures ParseTimeAt(t, i) == Some(ParseNat(m) * 60 + ParseNat(sec))
  {
  }

  /** Reading `m:ss` back takes the digits on each side of the colon. */
  lemma ParseTimeOfParts(m: string, sec: string)
    requires AllDigits(m) && AllDigits(sec) && m != [] && sec != []
    ensures ParseTime(m + [':'] + sec) == Some(ParseNat(m) * 60 + ParseNat(sec))
  {
    var t, i := m + [':'] + sec, |m|;
    IndexOfAfterDigits(m, ':', sec);
    ColonSplit(m, sec);
    ParseTimeAtParts(t, i, m, sec);
  }

  /** The clock loses nothing: reading it back gives the elapsed seconds. */
  lemma FormatTimeRoundTrip(seconds: nat)
    ensures ParseTime(FormatTime(seconds)) == Some(seconds)
  {
    var q, rm := seconds / 60, seconds % 60;
    MinuteSplit(seconds);
    TwoDigitsFacts(q);
    TwoDigitsFacts(rm);
    var m, sec := TwoDigits(q), TwoDigits(rm);
    assert FormatTime(seconds) == m + [':'] + sec;
    ParseTimeOfParts(m, sec);
  }

  // ---------------------------------------------------------------- the sets

  /** `exercises.reduce((acc, ex) => acc + ex.sets, 0)`. */
  function TotalSets(exs: seq<Exercise>): (r: nat)
    ensures forall k :: 0 <= k < |exs| ==> exs[k].sets <= r
  {
    if exs == [] then 0 else TotalSets(exs[..|exs| - 1]) + exs[|exs| - 1].sets
  }

  /** With at least one set per exercise, there are at least as many sets as exercises. */
  lemma {:induction false} TotalSetsAtLeastExercises(exs: seq<Exercise>)
    requires forall k :: 0 <= k < |exs| ==> exs[k].sets >= 1
    ensures TotalSets(exs) >= |exs|
  {
    if exs != [] {
      TotalSetsAtLeastExercises(exs[..|exs| - 1]);
    }
  }

  /** The checkbox key `${exerciseIdx}-${setIdx}`. */
  function SetKey(e: nat, k: nat): string
  {
    Digits(e) + "-" + Digits(k)
  }

  /** The key decodes: the digits before its first `-` read as the exercise
      index and the digits after it as the set index. */
  lemma SetKeyDecodes(e: nat, k: nat)
    ensures var key, i := SetKey(e, k), IndexOf(SetKey(e, k), '-');
      i < |key| && ParseNat(key[..i]) == e && ParseNat(key[i + 1..]) == k
  {
    var de, dk := Digits(e), Digits(k);
    var key := de + "-" + dk;
    IndexOfAfterDigits(de, '-', dk);
    assert key[..|de|] == de;
    assert key[|de| + 1..] == dk;
    ParseDigits(e);
    ParseDigits(k);
  }

  /** Different checkboxes have different keys. */
  lemma SetKeyInjective(a: nat, b: nat, c: nat, d: nat)
    requires SetKey(a, b) == SetKey(c, d)
    ensures a == c && b == d
  {
    SetKeyDecodes(a, b);
    SetKeyDecodes(c, d);
  }

  /** The keys of the first `n` checkboxes of exercise `e`. */
  function RowKeys(e: nat, n: nat): (r: set<string>)
    ensures |r| <= n
    ensures forall k :: 0 <= k < n ==> SetKey(e, k) in r
  {
    if n == 0 then {} else RowKeys(e, n - 1) + {SetKey(e, n - 1)}
  }

  /** The keys of every checkbox the tracker renders for `exs`. */
  function AllKeys(exs: seq<Exercise>): (r: set<string>)
    ensures |r| <= TotalSets(exs)
    ensures forall e, k :: 0 <= e < |exs| && 0 <= k < exs[e].sets ==> SetKey(e, k) in r
  {
    if exs == [] then {}
    else
      var init := exs[..|exs| - 1];
      var r := AllKeys(init) + RowKeys(|exs| - 1, exs[|exs| - 1].sets);
      assert forall e :: 0 <= e < |exs| - 1 ==> exs[e] == init[e];
      r
  }

  /** `toggleSet`'s copy of the set with `key` flipped. */
  function Toggled(s: set<string>, key: string): (r: set<string>)
    ensures key in r <==> key !in s
    ensures forall x :: x != key ==> (x in r <==> x in s)
    ensures |r| == if key in s then |s| - 1 else |s| + 1
  {
    if key in s then s - {key} else s + {key}
  }

  /** Toggling the same checkbox twice restores the set. */
  lemma ToggledTwice(s: set<string>, key: string)
    ensures Toggled(Toggled(s, key), key) == s
  {
  }

  /** Only rendered checkboxes are ever ticked, so the count of ticked sets
      never exceeds the total. */
  lemma CompletedWithinTotal(done: set<string>, exs: seq<Exercise>)
    requires done <= AllKeys(exs)
    ensures |done| <= TotalSets(exs)
  {
    assert |done| <= |AllKeys(exs)| by {
      var all := AllKeys(exs);
      assert all == done + (all - done);
    }
  }

  /** `MOCK_WORKOUTS.find(w => w.id === workoutId)`; `None` is the
      "Workout not found" screen. */
  function LookupWorkout(ws: seq<Workout>, id: string): (r: Option<Workout>)
    ensures r.None? <==> forall i :: 0 <= i < |ws| ==> ws[i].id != id
    ensures r.Some? ==> r.value.id == id && r.value in ws
    ensures r.Some? ==> exists i :: 0 <= i < |ws| && ws[i] == r.value && forall j :: 0 <= j < i ==> ws[j].id != id
  {
    Find((w: Workout) => w.id == id, ws)
  }

  // ---------------------------------------------------------------- the screen

  class WorkoutTracker {
    const workout: Option<Workout>
    /** Elapsed seconds. */
    var time: nat
    var isActive: bool
    var completedSets: set<string>

    /** Only keys of rendered checkboxes are ever ticked. */
    ghost predicate Valid()
      reads this
    {
      completedSets <= if workout.Some? then AllKeys(workout.value.exercises) else {}
    }

    /** The screen opens running, at 00:00, with nothing ticked. */
    constructor (ws: seq<Workout>, id: string)
      ensures Valid()
      ensures workout == LookupWorkout(ws, id)
      ensures time == 0 && isActive && completedSets == {}
    {
      workout := LookupWorkout(ws, id);
      time := 0;
      isActive := true;
      completedSets := {};
    }

    /** One second of the interval; the interval only runs while active. */
    method Tick()
      requires Valid()
      modifies this`time
      ensures Valid()
      ensures time == old(time) + if isActive then 1 else 0
    {
      if isActive {
        time := time + 1;
      }
    }

    /** The pause/resume button. */
    method TogglePause()
      requires Valid()
      modifies this`isActive
      ensures Valid()
      ensures isActive == !old(isActive) && time == old(time)
    {
      isActive := !isActive;
    }

    /** `toggleSet`: checkboxes exist only for the loaded workout's sets. */
    method ToggleSet(e: nat, k: nat)
      requires Valid()
      requires workout.Some? && e < |workout.value.exercises| && k < workout.value.exercises[e].sets
      modifies this`completedSets
      ensures Valid()
      ensures completedSets == Toggled(old(completedSets), SetKey(e, k))
    {
      var key := SetKey(e, k);
      if key in completedSets {
        completedSets := completedSets - {key};
      } else {
        completedSets := completedSets + {key};
      }
    }

    /** The header's "{completed} of {total} sets completed". */
    method SetsProgress() returns (done: nat, total: nat)
      requires Valid() && workout.Some?
      ensures done == |completedSets| && total == TotalSets(workout.value.exercises)
      ensures done <= total
    {
      done, total := |completedSets|, TotalSets(workout.value.exercises);
      CompletedWithinTotal(completedSets, workout.value.exercises);
    }
  }
}
