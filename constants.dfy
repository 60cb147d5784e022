/** The reference catalogs the engine consults (constants.ts): the default
    routine activities, the family-and-friends lesson path, the recovery
    milestones and the local affirmations. Only the fields the engine reads
    are kept; the explanatory prose of lessons and milestones is not. */
module Constants {
  import opened Types

  /** A routine item as the catalog defines it, before it has a completed flag. */
  datatype Activity = Activity(id: string, name: string, category: RoutineCategory)

  const DefaultActivities: seq<Activity> := [
    Activity("1", "Meditate", Mind),
    Activity("2", "Go for a walk", Body),
    Activity("3", "Drink water", Body),
    Activity("4", "Read recovery text", Mind),
    Activity("5", "Help someone", Connection),
    Activity("6", "Cold shower", Body),
    Activity("7", "Call a friend", Connection),
    Activity("8", "Daily reflection", Mind)
  ]

  datatype Lesson = Lesson(id: string, day: nat, title: string)

  const FamilyFriendsPath: seq<Lesson> := [
    Lesson("ff_1", 1, "The Three C\U{2019}s"),
    Lesson("ff_2", 2, "The Hijacked Brain"),
    Lesson("ff_3", 3, "Support vs. Enabling"),
    Lesson("ff_4", 4, "Setting Micro-Boundaries"),
    Lesson("ff_5", 5, "The Oxygen Mask"),
    Lesson("ff_6", 6, "Communicating with \"I\""),
    Lesson("ff_7", 7, "Marathon, Not a Sprint")
  ]

  datatype Milestone = Milestone(day: nat, title: string, reward: string)

  const RecoveryMilestones: seq<Milestone> := [
    Milestone(1, "The Courageous Leap", "Unlock: Emergency Safety Net widget"),
    Milestone(7, "The Physical Turning Point", "Unlock: Foundation Badge & Safe Place Finder"),
    Milestone(14, "The Clarity Window", "Unlock: Pattern Spotting Dashboard"),
    Milestone(30, "The New Baseline", "Eligibility: Lighthouse Peer Mentor & Digital Coin")
  ]

  const Affirmations: seq<string> := [
    "I am worthy of a life filled with peace and health.",
    "One day at a time, I am building a future I can be proud of.",
    "My progress is not defined by perfection, but by persistence.",
    "I have the strength to navigate today's challenges.",
    "I am not my past; I am my possibilities.",
    "Taking care of myself is the best way to care for my loved ones."
  ]

  /** The milestone days rise strictly, so no two milestones share a day. */
  lemma MilestoneDaysAscending()
    ensures forall i, j :: 0 <= i < j < |RecoveryMilestones| ==>
      RecoveryMilestones[i].day < RecoveryMilestones[j].day
  {
  }

  /** The eight default activities have the distinct ids "1" to "8", and
      none of them is in the "routine" category. */
  lemma DefaultActivitiesWellFormed()
    ensures |DefaultActivities| == 8
    ensures forall i, j :: 0 <= i < j < |DefaultActivities| ==>
      DefaultActivities[i].id != DefaultActivities[j].id
    ensures forall i :: 0 <= i < |DefaultActivities| ==>
      DefaultActivities[i].category in {Mind, Body, Connection}
  {
  }

  /** The lesson path has seven lessons with distinct ids, on days 1 to 7 in order. */
  lemma FamilyFriendsPathWellFormed()
    ensures |FamilyFriendsPath| == 7
    ensures forall i, j :: 0 <= i < j < |FamilyFriendsPath| ==>
      FamilyFriendsPath[i].id != FamilyFriendsPath[j].id
    ensures forall i :: 0 <= i < |FamilyFriendsPath| ==> FamilyFriendsPath[i].day == i + 1
  {
  }

  /** The affirmation picked when the advisory service fails: the entry at
      floor(r * count) for a random r in [0, 1). */
  function FallbackAffirmation(r: real): (a: string)
    requires 0.0 <= r < 1.0
    ensures a in Affirmations
  {
    var k := (r * |Affirmations| as real).Floor;
    assert 0 <= k < |Affirmations| by {
      assert 0.0 <= r * 6.0 < 6.0;
    }
    Affirmations[k]
  }
}
