# Silent Voices recovery engine in Dafny

This project models the state engine of the Silent Voices recovery app:
the `App` component's profile, check-in history, journal and routine
checklist; the handlers that change them; the risk assessment derived
from them; milestone detection; the toast notifications; and the four
records persisted under `silentvoices_user`, `silentvoices_routine`,
`silentvoices_checkins` and `silentvoices_journals`.

Modules, one per concern of the source:

- `Types` (types.ts): the records as datatypes. `UserRole`,
  `TrafficLightStatus`, `RiskLevel`, `Craving` and `RoutineCategory` are
  closed enumerations. An optional field is an `Option`, so a check-in
  with no craving level (`cravings: None`) is a separate case from
  `Some(NoCravings)`. Timestamps are integers in milliseconds.
- `Constants` (constants.ts): the default activities, the
  family-and-friends lesson path, the recovery milestones and the
  affirmations, with lemmas about their shape.
- `Risk`: the risk assessment, a pure function of whether a profile
  exists, the check-ins, the routine and the hour.
- `Profile`: the profile transitions as pure functions. These are the
  onboarding seed, the effect of a check-in on the counters, the
  resilience score and the lighthouse flag, milestone detection, lesson
  completion, and the status and risk updates. `ProfileInvariant` states
  what every profile the engine builds satisfies, and each transition is
  proved to keep it.
- `Checklist`: the seeded default routine and the toggle of one item.
- `Persistence`: the key/value store as a `map<StorageKey, Record>`. It
  includes the state a load builds from it (`Restore`) and round-trip
  lemmas.
- `Notices`: the notices with their texts, and the welcome-back check.
- `Store`: the class `RecoveryStore`, whose fields are the component's
  state slots plus the persisted map. Each handler is a method with a
  field-level `modifies` frame. The class invariant `Valid()` says that
  loading the persisted records again would give back exactly the
  in-memory profile, routine, check-ins and journal.

Integer forms of the source's floating-point tests:

- The completion-rate test `done / length < 0.5` is written
  `2 * done < length`. For an empty routine the source compares NaN,
  which is false, and so is `0 < 0`.
- `Math.round(100 * s / d)` for `s >= 0` and `d >= 1` is written
  `(200 * s + d) / (2 * d)`.
- The welcome-back test "more than two days" is kept as a real quotient.
  It is proved equal to `now - last > 2 * 86400000`.

Behaviour of the code that the model keeps:

- Non-addiction roles are seeded with two reasons to stay sober, not
  three (App.tsx:102).
- A family-or-friend check-in leaves the sober count at 0, so its
  resilience score is 0 (App.tsx:158, `CheckedInKeepsInvariant`).
- The risk write-back effect depends only on the assessment's value
  (App.tsx:79-85). It therefore runs only when the assessment changes
  from one render to the next. `RecoveryStore.Reassess` keeps the last
  render's value in `assessedRisk` for this reason. A loaded profile
  with a stored level other than LOW keeps that level while the
  assessment stays LOW.
- Toast timers are never cancelled (App.tsx:130-133). `TimerFires`
  clears whatever notice is showing, even a notice shown after that
  timer was scheduled (`Store.EarlierTimerClearsLaterToast`).
- The welcome-back notice is set without a timer of its own (App.tsx:39).
  It stays shown until a toast replaces it (App.tsx:131) or a toast timer
  fires.
- Handlers compose over one session (`Store.SessionScenario`): toggling
  the same routine item twice gives back the loaded routine, and a later
  check-in is stamped with its id and time and leaves the routine and the
  journal untouched.
- A check-in is prepended and saved even when there is no profile
  (App.tsx:141-145).
- The routine is saved after every toggle, including a toggle of an
  unknown id (App.tsx:179-183).
- Loads parse every record unguarded (App.tsx:30,34,46,51-52). The code
  does not tolerate a malformed record, so `RecoveryStore.Mount`
  requires `WellTyped(saved)`.

## Model

| member | source | states |
|---|---|---|
| `Risk.CravingScore` | App.tsx:61-62 | the craving score is at most 2. It is 0 exactly when the craving is absent or `none`, and 2 exactly when the craving is `strong`, so `mild` is 1 |
| `Risk.Window` | App.tsx:59 | the window is the newest check-ins, in their order: all of them when there are fewer than five, otherwise the first five |
| `Risk.CompletedCount` | App.tsx:68 | the count is at most the routine length; it equals the length iff every item is completed, and it is 0 iff none is |
| `Risk.CompletedCountAppend` | App.tsx:68 | the count of a concatenation is the sum of the counts, and a single item counts 1 exactly when it is completed. So the count is the number of completed items |
| `Risk.Classify` | App.tsx:74-76 | HIGH exactly from 70 points up; LOW exactly below 40 |
| `Risk.Assess` | App.tsx:55-77 | LOW without a profile or with fewer than 3 check-ins. Otherwise HIGH iff the mood fell and the cravings rose across the window and fewer than half the routine items are done. MEDIUM iff exactly one of those two signals holds, where the routine signal alone also needs the 23:00-04:59 window. So HIGH implies the mood/craving signal fired, and the hour alone never raises the level |
| `Risk.AssessIgnoresOlderHistory` | App.tsx:59-65 | check-ins older than the five newest do not affect the level |
| `Risk.LateNightDeclineIsHigh` | App.tsx:56-76 | moods 8,6,5,4,3 with cravings none,mild,mild,strong,strong (oldest to newest), 1 of 8 routine items done and hour 2 give 90 points and HIGH |
| `Profile.Onboard` | App.tsx:87-107 | the seed profile. It has resilience 100, zero sober and check-in days, status green, risk LOW, and no lighthouse flag. The vault is locked, and there are no connections and no lessons. Daily spend is 25 and daily hours 5 for the addiction role, 0 otherwise. There are 3 reasons for the addiction role and 2 otherwise. It satisfies the profile invariant |
| `Profile.DaysSinceJoin` | App.tsx:147-149 | at least 1. It is 1 below two whole days. Otherwise it is the number of whole days elapsed, floored |
| `Profile.RoundedPercent` | App.tsx:158 | the result is `100*s/d` rounded to the nearest integer, with halves rounded up |
| `Profile.RoundedPercentBounds` | App.tsx:158 | the rounded percentage reaches 100 exactly when the ratio is at least 99.5%, and it is 0 when there are no sober days |
| `Profile.ResilienceScore` | App.tsx:158 | the score lies in 0..100, and it is 0 with no sober days. It is 100 when the ratio of sober days to days since joining rounds to 100 or more. Otherwise it is that ratio as a percentage, rounded |
| `Profile.CheckedIn` | App.tsx:145-161 | check-in days grow by exactly one. Sober days grow by one, except for the family-or-friend role, where they stay the same. The score is the resilience score of the new sober count. The lighthouse flag becomes true from 30 sober days on and is never reset. No other field changes |
| `Profile.CheckedInKeepsInvariant` | App.tsx:151-159 | a check-in keeps the profile invariant, and it gives a family-or-friend profile a score of 0 |
| `Profile.FindMilestone` | App.tsx:154 | none iff no catalog entry has the day. Otherwise it returns an entry with exactly that day, and no earlier entry has it: the first match, as `find` returns |
| `Profile.MilestoneReached` | App.tsx:151-156 | a milestone is recorded only for roles other than family-or-friend, and iff some catalog day equals the new sober count; the recorded day is that count |
| `Profile.AtMostOneMilestone` | constants.ts:200-233 | two catalog entries with the same day are the same entry, so at most one milestone matches a count |
| `Profile.WeekMilestone` | App.tsx:154-155 | going from 6 to 7 sober days celebrates day 7, and going from 7 to 8 celebrates nothing |
| `Profile.CheckInSeriesCounts` | App.tsx:146-159 | after N check-ins the role is unchanged and check-in days grew by N. Sober days grew by N, or by 0 for the family-or-friend role. After at least one check-in the lighthouse flag is set exactly when it was already set or the final sober count is at least 30. The profile invariant holds throughout |
| `Profile.OnboardedSoberDays` | App.tsx:87-159 | starting from a fresh profile, N check-ins give N sober days, or 0 for the family-or-friend role. The lighthouse flag is set exactly when the role is not family-or-friend and N is at least 30 |
| `Profile.LessonCompleted` | App.tsx:122-124 | the id ends up recorded, and the set of ids grows by exactly that id. A list without duplicates stays without duplicates. The old list is kept as a prefix, with at most one id appended. An id already present changes nothing, and no other field changes |
| `Profile.LessonCompletedIdempotent` | App.tsx:120-128 | completing a lesson twice equals completing it once, and it keeps the profile invariant |
| `Profile.RiskWrittenBack` | App.tsx:80-82 | only the risk level changes, and it becomes the assessed level |
| `Profile.StatusSet` | App.tsx:114 | only the current status changes, and it becomes the given status |
| `Checklist.Seeded` | App.tsx:48 | each activity becomes one routine item, in catalog order, with the same id, name and category and `completed = false` |
| `Checklist.DefaultRoutineWellFormed` | constants.ts:15-24 | the default routine has 8 unchecked items with distinct ids, and none is in the "routine" category |
| `Checklist.ToggleItems` | App.tsx:180 | length and order are kept, and only `completed` may change. It flips exactly on the items whose id matches |
| `Checklist.ToggleUnknownId` | App.tsx:180 | toggling an id that no item has gives an equal routine |
| `Checklist.ToggleTwice` | App.tsx:180 | toggling the same id twice restores the routine |
| `Constants.MilestoneDaysAscending` | constants.ts:200-233 | the milestone days (1, 7, 14, 30) rise strictly |
| `Constants.DefaultActivitiesWellFormed` | constants.ts:15-24 | there are 8 default activities with distinct ids, each in the mind, body or connection category |
| `Constants.FamilyFriendsPathWellFormed` | constants.ts:34-84 | there are 7 lessons with distinct ids, on days 1 to 7 in order |
| `Constants.FallbackAffirmation` | geminiService.ts:156 | for a random value in [0, 1) the index `floor(r * 6)` is in range, and the pick is one of the affirmations |
| `Persistence.KeyNamesDistinct` | App.tsx:24-27 | the four storage key names are distinct |
| `Persistence.SaveAll` | App.tsx:23-53 | the routine, check-ins and journals keys are always written, and the user key exactly when there is a profile. Every written key holds a record of the shape the load expects |
| `Persistence.SaveAllRestore` | App.tsx:23-53 | saving the state (the profile only when present) and loading it back gives the same state |
| `Persistence.RestoreAfterWrite` | App.tsx:29-52 | replacing one record changes what a load gives for that record only |
| `Persistence.RestoreWithout` | App.tsx:29-52 | with one record absent, a load gives its default (no profile, the default routine, an empty list) and leaves the other three as stored |
| `Notices.Decimal` | App.tsx:39 | the sober count as placed in the welcome text: at least one character, decimal digits only, and no leading zero unless the count is 0 |
| `Notices.DecimalRoundTrip` | App.tsx:39 | reading the decimal text of a count back as a number gives the count |
| `Notices.Message` | App.tsx:39 | the welcome text starts with "Welcome back, ", then has the user's name, and after ". Remember: your " the sober count in decimal |
| `Notices.WelcomeMessageReportsCount` | App.tsx:39 | the digits at the counter position of the welcome text read back as the user's sober count |
| `Notices.WelcomeNotice` | App.tsx:33-41 | a welcome-back notice naming the user and the sober count is raised iff there is a check-in, the sober count exceeds 10, and the newest check-in is more than two days old |
| `Store.RecoveryStore.Mount` | App.tsx:23-53 | the loaded state is what `Restore` gives the saved records, and the invariant holds. It raises the welcome notice only with a profile. No milestone is pending, no timer is scheduled, and the assessment starts LOW |
| `Store.RecoveryStore.ShowToast` | App.tsx:130-133 | the notice is shown and one more timer is pending; nothing else changes |
| `Store.RecoveryStore.TimerFires` | App.tsx:132 | whatever notice is showing is cleared, and one timer fewer is pending |
| `Store.RecoveryStore.DismissMilestone` | App.tsx:201 | no milestone remains to celebrate |
| `Store.RecoveryStore.Reassess` | App.tsx:55-85 | the assessment becomes `Assess` of the current state. When it changed, a present profile whose level differs is updated and saved under the user key. Otherwise the profile and store are unchanged. The invariant is kept |
| `Store.RecoveryStore.HandleOnboarding` | App.tsx:87-110 | the profile becomes the seed profile, and only the user key is rewritten |
| `Store.RecoveryStore.UpdateStatus` | App.tsx:112-118 | without a profile nothing changes. Otherwise only the status changes and is saved under the user key. A notice is raised iff the status is red |
| `Store.RecoveryStore.HandleCompleteLesson` | App.tsx:120-128 | a new lesson is appended, saved, and announced. An already-completed lesson or a missing profile changes nothing and raises no notice. No duplicates are ever introduced |
| `Store.RecoveryStore.AddCheckIn` | App.tsx:135-164 | the stamped entry is prepended and the old history follows unchanged. It is saved under the check-ins key. With a profile, the profile becomes `CheckedIn` and is saved under the user key. A reached milestone is recorded, and a family-or-friend user gets the self-care notice. The routine and journal are untouched |
| `Store.RecoveryStore.PrependCheckIn` | App.tsx:141-143 | the entry goes in front of the history. The new history is saved under the check-ins key, and a reload gives back the in-memory state |
| `Store.RecoveryStore.CreditCheckIn` | App.tsx:145-163 | without a profile nothing changes. With one, the profile becomes `CheckedIn` and is saved under the user key. A milestone equal to the new sober count is recorded, only a family-or-friend user gets the self-care notice, and the profile invariant is kept |
| `Store.RecoveryStore.AddJournalEntry` | App.tsx:166-177 | with a profile, the entry is prepended and saved under the journals key, and the saved notice is raised. Without one, nothing changes |
| `Store.RecoveryStore.UpdateRoutine` | App.tsx:179-183 | the routine becomes the toggled routine, and only the routine key is rewritten |

## Left out

- Rendering, navigation and the active tab (App.tsx:185-226), and the `Logo` and `Card` components: these are presentation.
- The advisory service in geminiService.ts, which makes network calls to a generative model. Only its local affirmation fallback is modelled; the audio playback is Web Audio I/O.
- Serialisation: a record holds the value itself. JSON parsing and `localStorage` failures are not modelled, and ISO date strings are replaced by millisecond integers.
- Clocks and timers: `Date.now()`, `new Date()` and `getHours()` are the parameters `now` and `hour`. The three clock reads in `addCheckIn` are taken to agree. A toast timer firing is the event `TimerFires`; its 5-second delay is not modelled.
- Id generation (`Math.random`, `Date.now().toString()`): ids are parameters, and their uniqueness is not claimed.
- Store.RecoveryStore.Mount: React's scheduling of the first render and the effects is not modelled. The write-back that may follow a load is a separate call to `Reassess`.
- Store.RecoveryStore.Reassess: the memoised assessment is recomputed only by this call. The model does not track which state changes React would treat as dependency changes (a journal entry is not one).
- Profile.ResilienceScore: it uses exact rational rounding. The source divides and multiplies in floating point, which can differ at exact halves.
- ProfileInvariant is proved to be kept by every handler, but it is not part of `Valid()`: a loaded profile is not checked against it.
- Numbers are unbounded integers: NaN, infinities and non-integer moods are not modelled.
- Static prose: lesson messages and actions, milestone science, messages and icons, the resource library, journal prompts, the FAST framework, colours, contacts and role labels (constants.ts:4-13, 86-189, 235-283).
