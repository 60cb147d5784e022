/** The profile transitions of App.tsx as pure functions: the seed profile
    created at onboarding, the counters and derived fields a check-in
    updates, milestone detection, lesson completion and the risk write-back. */
module Profile {
  import opened Types
  import opened Constants

  /** One day in milliseconds. */
  const DayMs := 1000 * 60 * 60 * 24

  /** Sober days from which a profile is eligible as a lighthouse mentor. */
  const LighthouseDays := 30

  predicate NoDuplicates(xs: seq<string>)
  {
    forall i, j :: 0 <= i < j < |xs| ==> xs[i] != xs[j]
  }

  /** What every profile the engine produces satisfies: the score is a
      percentage, sober days never outrun check-in days, supporters accrue no
      sober days, thirty sober days mean lighthouse eligibility, and no lesson
      is recorded twice. */
  predicate ProfileInvariant(u: UserProfile)
  {
    && 0 <= u.resilienceScore <= 100
    && u.totalSoberDays <= u.totalCheckInDays
    && (u.role == FamilyFriend ==> u.totalSoberDays == 0)
    && (u.totalSoberDays >= LighthouseDays ==> u.isLighthouse)
    && NoDuplicates(u.completedLessons)
  }

  /** The profile created when onboarding completes. */
  function Onboard(role: UserRole, name: string, id: string, now: int): (u: UserProfile)
    ensures ProfileInvariant(u)
    ensures u.id == id && u.role == role && u.name == name && u.joinDate == now
    ensures !u.isPremium && u.onboardingCompleted
    ensures u.resilienceScore == 100 && u.totalSoberDays == 0 && u.totalCheckInDays == 0
    ensures u.currentStatus == Green && u.riskLevel == Low
    ensures u.dailySpend == Some(if role == Addiction then 25 else 0)
    ensures u.dailyHours == Some(if role == Addiction then 5 else 0)
    ensures |u.reasonsToStaySober| == if role == Addiction then 3 else 2
    ensures !u.isLighthouse && u.isVaultLocked && u.activeTrustKey == None
    ensures u.connections == [] && u.completedLessons == []
  {
    UserProfile(
      id, role, name, false, true, now, 100, 0, 0, Green, Low,
      Some(if role == Addiction then 25 else 0),
      Some(if role == Addiction then 5 else 0),
      if role == Addiction then
        ["My family deserves the real me", "I want to wake up without guilt", "I have so much more to give"]
      else
        ["I deserve my own peace", "I am choosing to respond, not react"],
      false, true, None, [], [])
  }

  /** Whole days since joining, floored, and at least one. */
  function DaysSinceJoin(joinTime: int, now: int): (d: int)
    ensures d >= 1
    ensures now - joinTime < 2 * DayMs ==> d == 1
    ensures now - joinTime >= DayMs ==> d * DayMs <= now - joinTime < (d + 1) * DayMs
  {
    var whole := (now - joinTime) / DayMs;
    if whole < 1 then 1 else whole
  }

  /** 100 * s / d rounded to the nearest integer, halves upwards
      (Math.round of a non-negative value). */
  function RoundedPercent(s: nat, d: int): (p: nat)
    requires d >= 1
    ensures 2 * d * p <= 200 * s + d < 2 * d * p + 2 * d
  {
    (200 * s + d) / (2 * d)
  }

  lemma MulMonotone(k: int, a: int, b: int)
    requires k >= 0 && a <= b
    ensures k * a <= k * b
  {
  }

  /** The rounded percentage reaches 100 exactly when 100 * s / d is at least
      99.5, and is 0 when s is. */
  lemma RoundedPercentBounds(s: nat, d: int)
    requires d >= 1
    ensures RoundedPercent(s, d) >= 100 <==> 200 * s + d >= 200 * d
    ensures s == 0 ==> RoundedPercent(s, d) == 0
  {
    var p := RoundedPercent(s, d);
    if p >= 100 {
      MulMonotone(2 * d, 100, p);
    } else {
      MulMonotone(2 * d, p + 1, 100);
      assert 2 * d * (p + 1) == 2 * d * p + 2 * d;
    }
    if s == 0 && p >= 1 {
      MulMonotone(2 * d, 1, p);
    }
  }

  /** The resilience score: sober days as a percentage of days since joining,
      rounded, capped at 100. */
  function ResilienceScore(soberDays: nat, joinTime: int, now: int): (score: int)
    ensures 0 <= score <= 100
    ensures soberDays == 0 ==> score == 0
    ensures var d := DaysSinceJoin(joinTime, now);
      && (200 * soberDays + d >= 200 * d ==> score == 100)
      && (200 * soberDays + d < 200 * d ==> 2 * d * score <= 200 * soberDays + d < 2 * d * score + 2 * d)
  {
    var d := DaysSinceJoin(joinTime, now);
    var p := RoundedPercent(soberDays, d);
    RoundedPercentBounds(soberDays, d);
    if p < 100 then p else 100
  }

  /** The sober days after a check-in: one more, except for supporters. */
  function SoberDaysAfterCheckIn(u: UserProfile): nat
  {
    if u.role != FamilyFriend then u.totalSoberDays + 1 else u.totalSoberDays
  }

  /** The profile after a check-in at time `now`. */
  function CheckedIn(u: UserProfile, now: int): (v: UserProfile)
    ensures v.totalCheckInDays == u.totalCheckInDays + 1
    ensures v.totalSoberDays == u.totalSoberDays + (if u.role == FamilyFriend then 0 else 1)
    ensures v.resilienceScore == ResilienceScore(v.totalSoberDays, u.joinDate, now)
    ensures v.isLighthouse == (u.isLighthouse || v.totalSoberDays >= LighthouseDays)
    ensures v.(totalCheckInDays := u.totalCheckInDays, totalSoberDays := u.totalSoberDays,
               resilienceScore := u.resilienceScore, isLighthouse := u.isLighthouse) == u
  {
    var newSober := SoberDaysAfterCheckIn(u);
    u.(totalCheckInDays := u.totalCheckInDays + 1,
       totalSoberDays := newSober,
       resilienceScore := ResilienceScore(newSober, u.joinDate, now),
       isLighthouse := if newSober >= LighthouseDays then true else u.isLighthouse)
  }

  /** A check-in keeps the profile invariant; a supporter's score drops to 0. */
  lemma CheckedInKeepsInvariant(u: UserProfile, now: int)
    requires ProfileInvariant(u)
    ensures ProfileInvariant(CheckedIn(u, now))
    ensures u.role == FamilyFriend ==> CheckedIn(u, now).resilienceScore == 0
  {
  }

  /** The first milestone of `ms` whose day is exactly `day` (Array find). */
  function FindMilestone(ms: seq<Milestone>, day: int): (m: Option<Milestone>)
    ensures m.None? <==> forall i :: 0 <= i < |ms| ==> ms[i].day != day
    ensures m.Some? ==> m.value.day == day
    ensures m.Some? ==> exists i ::
      (0 <= i < |ms| && ms[i] == m.value && forall j :: 0 <= j < i ==> ms[j].day != day)
  {
    if ms == [] then None
    else if ms[0].day == day then Some(ms[0])
    else
      var rest := FindMilestone(ms[1..], day);
      assert rest.Some? ==> exists i ::
        (0 <= i < |ms| && ms[i] == rest.value && forall j :: 0 <= j < i ==> ms[j].day != day) by {
        if rest.Some? {
          var k :| 0 <= k < |ms[1..]| && ms[1..][k] == rest.value
            && forall j :: 0 <= j < k ==> ms[1..][j].day != day;
          assert ms[k + 1] == rest.value;
          assert forall j :: 0 <= j < k + 1 ==> ms[j].day != day by {
            forall j | 0 <= j < k + 1 ensures ms[j].day != day {
              if j > 0 { assert ms[j] == ms[1..][j - 1]; }
            }
          }
        }
      }
      rest
  }

  /** The milestone day to celebrate after a check-in of `u`, if any: never
      for supporters, otherwise a catalog day equal to the new sober count. */
  function MilestoneReached(u: UserProfile): (m: Option<nat>)
    ensures m.Some? ==> u.role != FamilyFriend && m.value == u.totalSoberDays + 1
    ensures m.Some? <==> (u.role != FamilyFriend
      && exists i :: 0 <= i < |RecoveryMilestones| && RecoveryMilestones[i].day == u.totalSoberDays + 1)
  {
    if u.role == FamilyFriend then None
    else match FindMilestone(RecoveryMilestones, SoberDaysAfterCheckIn(u))
      case Some(hit) => Some(hit.day)
      case None => None
  }

  /** Since the catalog days are distinct, at most one milestone matches a count. */
  lemma AtMostOneMilestone(day: int, i: int, j: int)
    requires 0 <= i < |RecoveryMilestones| && 0 <= j < |RecoveryMilestones|
    requires RecoveryMilestones[i].day == day && RecoveryMilestones[j].day == day
    ensures i == j
  {
    MilestoneDaysAscending();
  }

  /** Going from 6 to 7 sober days celebrates day 7; from 7 to 8 celebrates nothing. */
  lemma WeekMilestone(u: UserProfile)
    requires u.role != FamilyFriend
    ensures u.totalSoberDays == 6 ==> MilestoneReached(u) == Some(7)
    ensures u.totalSoberDays == 7 ==> MilestoneReached(u) == None
  {
    if u.totalSoberDays == 7 {
      assert forall i :: 0 <= i < |RecoveryMilestones| ==> RecoveryMilestones[i].day != 8;
    }
  }

  /** The profile after one check-in per timestamp of `nows`, in order. */
  function CheckInSeries(u: UserProfile, nows: seq<int>): UserProfile
    decreases |nows|
  {
    if nows == [] then u else CheckInSeries(CheckedIn(u, nows[0]), nows[1..])
  }

  /** After N check-ins the check-in count grew by N and the sober count by N
      (by nothing for supporters); the role is kept; after at least one
      check-in the lighthouse flag is set exactly when it was set before or
      the sober count has reached the threshold; and the profile invariant
      holds throughout. */
  lemma {:induction false} CheckInSeriesCounts(u: UserProfile, nows: seq<int>)
    ensures CheckInSeries(u, nows).role == u.role
    ensures CheckInSeries(u, nows).totalCheckInDays == u.totalCheckInDays + |nows|
    ensures CheckInSeries(u, nows).totalSoberDays == u.totalSoberDays + (if u.role == FamilyFriend then 0 else |nows|)
    ensures nows != [] ==>
      (CheckInSeries(u, nows).isLighthouse <==> u.isLighthouse || CheckInSeries(u, nows).totalSoberDays >= LighthouseDays)
    ensures ProfileInvariant(u) ==> ProfileInvariant(CheckInSeries(u, nows))
    decreases |nows|
  {
    if nows != [] {
      if ProfileInvariant(u) {
        CheckedInKeepsInvariant(u, nows[0]);
      }
      var w := CheckedIn(u, nows[0]);
      CheckInSeriesCounts(w, nows[1..]);
      var v := CheckInSeries(w, nows[1..]);
      assert CheckInSeries(u, nows) == v;
      if nows[1..] == [] {
        assert v == w;
      } else {
        assert w.totalSoberDays <= v.totalSoberDays;
      }
    }
  }

  /** From a fresh profile, N check-ins give N sober days, or 0 for
      supporters, and the lighthouse flag exactly from the 30th on. */
  lemma OnboardedSoberDays(role: UserRole, name: string, id: string, joined: int, nows: seq<int>)
    ensures CheckInSeries(Onboard(role, name, id, joined), nows).totalSoberDays
      == if role == FamilyFriend then 0 else |nows|
    ensures CheckInSeries(Onboard(role, name, id, joined), nows).isLighthouse
      <==> role != FamilyFriend && |nows| >= LighthouseDays
  {
    CheckInSeriesCounts(Onboard(role, name, id, joined), nows);
  }

  /** The profile after completing lesson `id`: the id is appended unless it is
      already there, in which case nothing changes. */
  function LessonCompleted(u: UserProfile, id: string): (v: UserProfile)
    ensures id in v.completedLessons
    ensures forall x :: x in v.completedLessons <==> x in u.completedLessons || x == id
    ensures NoDuplicates(u.completedLessons) ==> NoDuplicates(v.completedLessons)
    ensures |u.completedLessons| <= |v.completedLessons| <= |u.completedLessons| + 1
    ensures v.completedLessons[..|u.completedLessons|] == u.completedLessons
    ensures id in u.completedLessons ==> v == u
    ensures v.(completedLessons := u.completedLessons) == u
  {
    if id in u.completedLessons then u
    else u.(completedLessons := u.completedLessons + [id])
  }

  /** Completing the same lesson twice is the same as completing it once, and
      keeps the profile invariant. */
  lemma LessonCompletedIdempotent(u: UserProfile, id: string)
    ensures LessonCompleted(LessonCompleted(u, id), id) == LessonCompleted(u, id)
    ensures ProfileInvariant(u) ==> ProfileInvariant(LessonCompleted(u, id))
  {
  }

  /** The profile with its risk level replaced by the latest assessment. */
  function RiskWrittenBack(u: UserProfile, r: RiskLevel): (v: UserProfile)
    ensures v.riskLevel == r
    ensures v.(riskLevel := u.riskLevel) == u
    ensures ProfileInvariant(u) ==> ProfileInvariant(v)
  {
    u.(riskLevel := r)
  }

  /** The profile with a new traffic-light status. */
  function StatusSet(u: UserProfile, s: TrafficLightStatus): (v: UserProfile)
    ensures v.currentStatus == s
    ensures v.(currentStatus := u.currentStatus) == u
    ensures ProfileInvariant(u) ==> ProfileInvariant(v)
  {
    u.(currentStatus := s)
  }
}
