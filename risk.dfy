/** The risk assessment of App.tsx: a heuristic early-warning level computed
    from the newest check-ins, the routine checklist and the hour of day. */
module Risk {
  import opened Types

  /** At most this many of the newest check-ins are looked at. */
  const WindowSize := 5

  /** Below this many check-ins the assessment is always LOW. */
  const MinCheckIns := 3

  /** The craving map: none = 0, mild = 1, strong = 2, and a check-in that
      reports no craving level at all counts as none. */
  function CravingScore(c: Option<Craving>): (n: nat)
    ensures n <= 2
    ensures n == 0 <==> c == None || c == Some(NoCravings)
    ensures n == 2 <==> c == Some(Strong)
  {
    match c
    case None => 0
    case Some(NoCravings) => 0
    case Some(Mild) => 1
    case Some(Strong) => 2
  }

  /** The newest check-ins (the list is newest first), at most five of them. */
  function Window(checkIns: seq<CheckIn>): (w: seq<CheckIn>)
    ensures |w| <= WindowSize && (|checkIns| >= WindowSize ==> |w| == WindowSize)
    ensures |checkIns| < WindowSize ==> w == checkIns
    ensures forall i :: 0 <= i < |w| ==> w[i] == checkIns[i]
  {
    checkIns[..if |checkIns| < WindowSize then |checkIns| else WindowSize]
  }

  /** From the oldest to the newest check-in of the window the mood fell
      strictly and the craving score rose strictly. */
  predicate DecliningWithCravings(window: seq<CheckIn>)
    requires |window| > 0
  {
    var oldest, newest := window[|window| - 1], window[0];
    oldest.mood > newest.mood && CravingScore(oldest.cravings) < CravingScore(newest.cravings)
  }

  /** The number of completed routine items (the length of the filtered list). */
  function CompletedCount(routine: seq<RoutineItem>): (n: nat)
    ensures n <= |routine|
    ensures n == |routine| <==> forall i :: 0 <= i < |routine| ==> routine[i].completed
    ensures n == 0 <==> forall i :: 0 <= i < |routine| ==> !routine[i].completed
  {
    if routine == [] then 0
    else (if routine[0].completed then 1 else 0) + CompletedCount(routine[1..])
  }

  /** Counting is additive over concatenation, and a single item counts one
      exactly when it is completed; together these fix the count as the
      number of completed items. */
  lemma {:induction false} CompletedCountAppend(a: seq<RoutineItem>, b: seq<RoutineItem>)
    ensures CompletedCount(a + b) == CompletedCount(a) + CompletedCount(b)
    ensures |a| == 1 ==> CompletedCount(a) == if a[0].completed then 1 else 0
    decreases |a|
  {
    if a != [] {
      assert (a + b)[0] == a[0];
      assert (a + b)[1..] == a[1..] + b;
      CompletedCountAppend(a[1..], b);
    } else {
      assert a + b == b;
    }
  }

  /** The completion rate is below one half. For an empty routine the rate is
      0/0, which is not below one half, and neither is 2 * 0 < 0. */
  predicate RoutineNeglected(routine: seq<RoutineItem>)
  {
    2 * CompletedCount(routine) < |routine|
  }

  /** The hours from 23:00 to 04:59. */
  predicate LateNight(hour: int)
  {
    hour >= 23 || hour <= 4
  }

  /** The points accumulated by the three signals. */
  function RiskPoints(checkIns: seq<CheckIn>, routine: seq<RoutineItem>, hour: int): (p: nat)
    requires |checkIns| > 0
  {
    (if DecliningWithCravings(Window(checkIns)) then 40 else 0)
    + (if RoutineNeglected(routine) then 30 else 0)
    + (if LateNight(hour) then 20 else 0)
  }

  function Classify(points: int): (r: RiskLevel)
    ensures r == High <==> points >= 70
    ensures r == Low <==> points < 40
  {
    if points >= 70 then High else if points >= 40 then Medium else Low
  }

  /** The risk level of the profile's current situation. The mood/craving
      signal is worth 40 and the other two 30 and 20, so HIGH (70 or more)
      needs the mood/craving signal together with a neglected routine, and the
      hour alone never lifts the level above LOW. */
  function Assess(hasUser: bool, checkIns: seq<CheckIn>, routine: seq<RoutineItem>, hour: int): (r: RiskLevel)
    ensures !hasUser || |checkIns| < MinCheckIns ==> r == Low
    ensures r == High <==>
      hasUser && |checkIns| >= MinCheckIns
      && DecliningWithCravings(Window(checkIns)) && RoutineNeglected(routine)
    ensures r == Medium <==>
      hasUser && |checkIns| >= MinCheckIns
      && ((DecliningWithCravings(Window(checkIns)) && !RoutineNeglected(routine))
          || (!DecliningWithCravings(Window(checkIns)) && RoutineNeglected(routine) && LateNight(hour)))
  {
    if !hasUser || |checkIns| < MinCheckIns then Low
    else Classify(RiskPoints(checkIns, routine, hour))
  }

  /** Only the five newest check-ins matter: whatever older history follows
      them leaves the level unchanged. */
  lemma AssessIgnoresOlderHistory(hasUser: bool, newest: seq<CheckIn>, older: seq<CheckIn>,
                                  routine: seq<RoutineItem>, hour: int)
    requires |newest| == WindowSize
    ensures Assess(hasUser, newest + older, routine, hour) == Assess(hasUser, newest, routine, hour)
  {
    assert Window(newest + older) == Window(newest);
  }

  function SampleCheckIn(mood: int, craving: Craving): CheckIn
  {
    CheckIn("", 0, mood, "", Some(craving), None, None, None, None, None)
  }

  /** A late-night decline: moods 8, 6, 5, 4, 3 and cravings none, mild, mild,
      strong, strong from oldest to newest, one routine item of eight done, at
      two in the morning. All three signals fire, 90 points, HIGH. */
  lemma LateNightDeclineIsHigh(routine: seq<RoutineItem>)
    requires |routine| == 8 && CompletedCount(routine) == 1
    ensures var checkIns := [SampleCheckIn(3, Strong), SampleCheckIn(4, Strong), SampleCheckIn(5, Mild),
                             SampleCheckIn(6, Mild), SampleCheckIn(8, NoCravings)];
      RiskPoints(checkIns, routine, 2) == 90 && Assess(true, checkIns, routine, 2) == High
  {
  }
}
