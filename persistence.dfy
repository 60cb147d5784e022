/** The persisted key/value store of App.tsx: four named records, each
    replaced whole on every write, and the state a load restores from them.
    Serialisation is abstracted: a record holds the value itself. */
module Persistence {
  import opened Types
  import opened Checklist

  datatype StorageKey = UserKey | RoutineKey | CheckInsKey | JournalsKey

  /** The key under which each record is stored. */
  function KeyName(k: StorageKey): string
  {
    match k
    case UserKey => "silentvoices_user"
    case RoutineKey => "silentvoices_routine"
    case CheckInsKey => "silentvoices_checkins"
    case JournalsKey => "silentvoices_journals"
  }

  /** The four keys are distinct storage names. */
  lemma KeyNamesDistinct(a: StorageKey, b: StorageKey)
    requires KeyName(a) == KeyName(b)
    ensures a == b
  {
  }

  datatype Record =
    | ProfileRecord(profile: UserProfile)
    | RoutineRecord(items: seq<RoutineItem>)
    | CheckInsRecord(checkIns: seq<CheckIn>)
    | JournalsRecord(journals: seq<JournalEntry>)

  predicate Fits(k: StorageKey, r: Record)
  {
    match k
    case UserKey => r.ProfileRecord?
    case RoutineKey => r.RoutineRecord?
    case CheckInsKey => r.CheckInsRecord?
    case JournalsKey => r.JournalsRecord?
  }

  /** Every stored record has the shape its key calls for (each one parses). */
  predicate WellTyped(saved: map<StorageKey, Record>)
  {
    forall k :: k in saved ==> Fits(k, saved[k])
  }

  /** The four pieces of state that are persisted. */
  datatype Snapshot = Snapshot(
    user: Option<UserProfile>,
    routine: seq<RoutineItem>,
    checkIns: seq<CheckIn>,
    journals: seq<JournalEntry>)

  /** The state a load builds from the store: each record that is present,
      and for an absent one no profile, the default routine, or an empty list. */
  function Restore(saved: map<StorageKey, Record>): (s: Snapshot)
    requires WellTyped(saved)
  {
    Snapshot(
      if UserKey in saved then Some(saved[UserKey].profile) else None,
      if RoutineKey in saved then saved[RoutineKey].items else DefaultRoutine(),
      if CheckInsKey in saved then saved[CheckInsKey].checkIns else [],
      if JournalsKey in saved then saved[JournalsKey].journals else [])
  }

  /** The store holding every piece of `s`; an absent profile is not written. */
  function SaveAll(s: Snapshot): (saved: map<StorageKey, Record>)
    ensures WellTyped(saved)
    ensures UserKey in saved <==> s.user.Some?
    ensures RoutineKey in saved && CheckInsKey in saved && JournalsKey in saved
  {
    var rest := map[RoutineKey := RoutineRecord(s.routine),
                    CheckInsKey := CheckInsRecord(s.checkIns),
                    JournalsKey := JournalsRecord(s.journals)];
    if s.user.Some? then rest[UserKey := ProfileRecord(s.user.value)] else rest
  }

  /** Saving every record and loading them back gives the same state. */
  lemma SaveAllRestore(s: Snapshot)
    ensures Restore(SaveAll(s)) == s
  {
  }

  /** Writing one record changes what a load gives for that record only. */
  lemma RestoreAfterWrite(saved: map<StorageKey, Record>, k: StorageKey, r: Record)
    requires WellTyped(saved) && Fits(k, r)
    ensures WellTyped(saved[k := r])
    ensures var before, after := Restore(saved), Restore(saved[k := r]);
      match r
      case ProfileRecord(p) => after == before.(user := Some(p))
      case RoutineRecord(items) => after == before.(routine := items)
      case CheckInsRecord(c) => after == before.(checkIns := c)
      case JournalsRecord(j) => after == before.(journals := j)
  {
  }

  /** With one record missing, a load gives that record's default and leaves
      the other three as stored. */
  lemma RestoreWithout(saved: map<StorageKey, Record>, k: StorageKey)
    requires WellTyped(saved)
    ensures WellTyped(saved - {k})
    ensures var before, after := Restore(saved), Restore(saved - {k});
      match k
      case UserKey => after == before.(user := None)
      case RoutineKey => after == before.(routine := DefaultRoutine())
      case CheckInsKey => after == before.(checkIns := [])
      case JournalsKey => after == before.(journals := [])
  {
  }
}
