/** The state of the App component and its handlers. Each handler replaces
    some of the state slots and rewrites the persisted records it changed;
    the class invariant says that the persisted records, loaded again, give
    back exactly the profile, routine, check-ins and journal in memory.
    Clock readings (`now` in milliseconds, the local `hour`) and generated
    ids are parameters; a fired toast timer is an event of its own. */
module Store {
  import opened Types
  import opened Risk
  import opened Profile
  import opened Checklist
  import opened Persistence
  import opened Notices

  /** A present profile satisfies the profile invariant. */
  predicate ProfileOk(u: Option<UserProfile>)
  {
    u.Some? ==> ProfileInvariant(u.value)
  }

  class RecoveryStore {
    var user: Option<UserProfile>
    var checkIns: seq<CheckIn>
    var journals: seq<JournalEntry>
    var routine: seq<RoutineItem>
    var notification: Option<Notice>
    var milestoneToCelebrate: Option<nat>
    /** Toast timers scheduled and not fired yet; none is ever cancelled. */
    var pendingTimers: nat
    /** The risk level computed at the latest render (the memoised assessment). */
    var assessedRisk: RiskLevel
    var persisted: map<StorageKey, Record>

    function State(): Snapshot
      reads this
    {
      Snapshot(user, routine, checkIns, journals)
    }

    /** Every record parses, and a reload now would give back the state in memory. */
    ghost predicate Valid()
      reads this
    {
      WellTyped(persisted) && Restore(persisted) == State()
    }

    /** The first render followed by the load effect: each saved record is
        taken as it is, the default routine is seeded when none is saved, and
        a returning user may be welcomed back. */
    constructor Mount(saved: map<StorageKey, Record>, now: int)
      requires WellTyped(saved)
      ensures Valid() && persisted == saved
      ensures State() == Restore(saved)
      ensures notification == if user.Some? then WelcomeNotice(user.value, checkIns, now) else None
      ensures milestoneToCelebrate == None && pendingTimers == 0 && assessedRisk == Low
    {
      var s := Restore(saved);
      user := s.user;
      routine := s.routine;
      checkIns := s.checkIns;
      journals := s.journals;
      notification := if s.user.Some? then WelcomeNotice(s.user.value, s.checkIns, now) else None;
      milestoneToCelebrate := None;
      pendingTimers := 0;
      assessedRisk := Low;
      persisted := saved;
    }

    /** Shows `msg` at once, replacing any notice, and schedules a timer that
        will clear whatever notice is showing when it fires. */
    method ShowToast(msg: Notice)
      modifies this`notification, this`pendingTimers
      ensures notification == Some(msg)
      ensures pendingTimers == old(pendingTimers) + 1
    {
      notification := Some(msg);
      pendingTimers := pendingTimers + 1;
    }

    /** The oldest pending toast timer fires and clears the notice, even one
        shown after that timer was scheduled. */
    method TimerFires()
      requires pendingTimers > 0
      modifies this`notification, this`pendingTimers
      ensures notification == None
      ensures pendingTimers == old(pendingTimers) - 1
    {
      notification := None;
      pendingTimers := pendingTimers - 1;
    }

    /** The celebration overlay is closed. */
    method DismissMilestone()
      modifies this`milestoneToCelebrate
      ensures milestoneToCelebrate == None
    {
      milestoneToCelebrate := None;
    }

    /** The render after a change to the profile, routine or check-ins: the
        assessment is recomputed at `hour`; only when its value differs from
        the previous render's does the write-back effect run, and it stores
        the new level in a present profile whose level differs. */
    method Reassess(hour: int)
      requires Valid()
      modifies this`assessedRisk, this`user, this`persisted
      ensures Valid()
      ensures assessedRisk == Assess(user.Some?, checkIns, routine, hour)
      ensures user.Some? == old(user).Some?
      ensures ProfileOk(old(user)) ==> ProfileOk(user)
      ensures assessedRisk != old(assessedRisk) && user.Some? ==> user.value.riskLevel == assessedRisk
      ensures assessedRisk != old(assessedRisk) && old(user).Some? && old(user).value.riskLevel != assessedRisk ==>
        && user == Some(RiskWrittenBack(old(user).value, assessedRisk))
        && persisted == old(persisted)[UserKey := ProfileRecord(user.value)]
      ensures !(assessedRisk != old(assessedRisk) && old(user).Some? && old(user).value.riskLevel != assessedRisk) ==>
        user == old(user) && persisted == old(persisted)
    {
      var r := Assess(user.Some?, checkIns, routine, hour);
      if r != assessedRisk {
        assessedRisk := r;
        if user.Some? && user.value.riskLevel != r {
          var v := RiskWrittenBack(user.value, r);
          user := Some(v);
          persisted := persisted[UserKey := ProfileRecord(v)];
        }
      }
    }

    /** Onboarding completes: a fresh profile replaces any present one and is saved. */
    method HandleOnboarding(role: UserRole, name: string, id: string, now: int)
      requires Valid()
      modifies this`user, this`persisted
      ensures Valid()
      ensures user == Some(Onboard(role, name, id, now)) && ProfileOk(user)
      ensures persisted == old(persisted)[UserKey := ProfileRecord(user.value)]
    {
      var u := Onboard(role, name, id, now);
      user := Some(u);
      persisted := persisted[UserKey := ProfileRecord(u)];
    }

    /** Sets the traffic-light status of a present profile; red raises the
        standby-support notice. Without a profile nothing happens. */
    method UpdateStatus(status: TrafficLightStatus)
      requires Valid()
      modifies this`user, this`persisted, this`notification, this`pendingTimers
      ensures Valid()
      ensures ProfileOk(old(user)) ==> ProfileOk(user)
      ensures old(user).None? ==> user == old(user) && persisted == old(persisted)
      ensures old(user).Some? ==>
        && user == Some(StatusSet(old(user).value, status))
        && persisted == old(persisted)[UserKey := ProfileRecord(user.value)]
      ensures old(user).Some? && status == Red ==>
        notification == Some(SupportOnStandby) && pendingTimers == old(pendingTimers) + 1
      ensures !(old(user).Some? && status == Red) ==>
        notification == old(notification) && pendingTimers == old(pendingTimers)
    {
      if user.None? {
        return;
      }
      var v := StatusSet(user.value, status);
      user := Some(v);
      persisted := persisted[UserKey := ProfileRecord(v)];
      if status == Red {
        ShowToast(SupportOnStandby);
      }
    }

    /** Records a completed lesson once: a lesson already recorded, or a
        missing profile, changes nothing and raises no notice. */
    method HandleCompleteLesson(lessonId: string)
      requires Valid()
      modifies this`user, this`persisted, this`notification, this`pendingTimers
      ensures Valid()
      ensures ProfileOk(old(user)) ==> ProfileOk(user)
      ensures old(user).Some? && lessonId !in old(user).value.completedLessons ==>
        && user == Some(LessonCompleted(old(user).value, lessonId))
        && persisted == old(persisted)[UserKey := ProfileRecord(user.value)]
        && notification == Some(LessonDone) && pendingTimers == old(pendingTimers) + 1
      ensures old(user).None? || lessonId in old(user).value.completedLessons ==>
        && user == old(user) && persisted == old(persisted)
        && notification == old(notification) && pendingTimers == old(pendingTimers)
    {
      if user.None? {
        return;
      }
      if lessonId in user.value.completedLessons {
        return;
      }
      var v := LessonCompleted(user.value, lessonId);
      user := Some(v);
      persisted := persisted[UserKey := ProfileRecord(v)];
      ShowToast(LessonDone);
    }

    /** Logs a check-in: the entry, stamped with `id` and `now`, is put in
        front of the history and saved, even without a profile. A present
        profile then gets its counters and derived fields updated; a
        milestone matching the new sober count is recorded for celebration,
        and a supporter is shown the self-care notice. */
    method AddCheckIn(draft: CheckIn, id: string, now: int)
      requires Valid()
      modifies this`checkIns, this`user, this`persisted, this`milestoneToCelebrate,
               this`notification, this`pendingTimers
      ensures Valid()
      ensures checkIns == [draft.(id := id, date := now)] + old(checkIns)
      ensures ProfileOk(old(user)) ==> ProfileOk(user)
      ensures old(user).None? ==>
        && user == None
        && persisted == old(persisted)[CheckInsKey := CheckInsRecord(checkIns)]
        && milestoneToCelebrate == old(milestoneToCelebrate)
      ensures old(user).Some? ==>
        && user == Some(CheckedIn(old(user).value, now))
        && persisted == old(persisted)[CheckInsKey := CheckInsRecord(checkIns)][UserKey := ProfileRecord(user.value)]
        && milestoneToCelebrate ==
             if MilestoneReached(old(user).value).Some? then MilestoneReached(old(user).value)
             else old(milestoneToCelebrate)
      ensures old(user).Some? && old(user).value.role == FamilyFriend ==>
        notification == Some(SelfCareLogged) && pendingTimers == old(pendingTimers) + 1
      ensures !(old(user).Some? && old(user).value.role == FamilyFriend) ==>
        notification == old(notification) && pendingTimers == old(pendingTimers)
    {
      PrependCheckIn(draft.(id := id, date := now));
      CreditCheckIn(now);
    }

    /** The first half of a check-in: the entry goes in front of the history,
        which is saved. */
    method PrependCheckIn(entry: CheckIn)
      requires Valid()
      modifies this`checkIns, this`persisted
      ensures Valid()
      ensures checkIns == [entry] + old(checkIns)
      ensures persisted == old(persisted)[CheckInsKey := CheckInsRecord(checkIns)]
    {
      RestoreAfterWrite(persisted, CheckInsKey, CheckInsRecord([entry] + checkIns));
      checkIns := [entry] + checkIns;
      persisted := persisted[CheckInsKey := CheckInsRecord(checkIns)];
    }

    /** The second half of a check-in at `now`: a present profile is credited
        and saved, a reached milestone is recorded, and a supporter gets the
        self-care notice. Without a profile nothing happens. */
    method CreditCheckIn(now: int)
      requires Valid()
      modifies this`user, this`persisted, this`milestoneToCelebrate, this`notification, this`pendingTimers
      ensures Valid()
      ensures ProfileOk(old(user)) ==> ProfileOk(user)
      ensures old(user).None? ==>
        && user == None && persisted == old(persisted)
        && milestoneToCelebrate == old(milestoneToCelebrate)
      ensures old(user).Some? ==>
        && user == Some(CheckedIn(old(user).value, now))
        && persisted == old(persisted)[UserKey := ProfileRecord(user.value)]
        && milestoneToCelebrate ==
             if MilestoneReached(old(user).value).Some? then MilestoneReached(old(user).value)
             else old(milestoneToCelebrate)
      ensures old(user).Some? && old(user).value.role == FamilyFriend ==>
        notification == Some(SelfCareLogged) && pendingTimers == old(pendingTimers) + 1
      ensures !(old(user).Some? && old(user).value.role == FamilyFriend) ==>
        notification == old(notification) && pendingTimers == old(pendingTimers)
    {
      if user.None? {
        return;
      }
      var u := user.value;
      var hit := MilestoneReached(u);
      if hit.Some? {
        milestoneToCelebrate := hit;
      }
      var v := CheckedIn(u, now);
      if ProfileInvariant(u) {
        CheckedInKeepsInvariant(u, now);
      }
      RestoreAfterWrite(persisted, UserKey, ProfileRecord(v));
      user := Some(v);
      persisted := persisted[UserKey := ProfileRecord(v)];
      if u.role == FamilyFriend {
        ShowToast(SelfCareLogged);
      }
    }

    /** Saves a journal entry in front of the journal when a profile is present. */
    method AddJournalEntry(content: string, id: string, now: int)
      requires Valid()
      modifies this`journals, this`persisted, this`notification, this`pendingTimers
      ensures Valid()
      ensures user.None? ==>
        && journals == old(journals) && persisted == old(persisted)
        && notification == old(notification) && pendingTimers == old(pendingTimers)
      ensures user.Some? ==>
        && journals == [JournalEntry(id, now, content, None)] + old(journals)
        && persisted == old(persisted)[JournalsKey := JournalsRecord(journals)]
        && notification == Some(ReflectionSaved) && pendingTimers == old(pendingTimers) + 1
    {
      if user.None? {
        return;
      }
      journals := [JournalEntry(id, now, content, None)] + journals;
      persisted := persisted[JournalsKey := JournalsRecord(journals)];
      ShowToast(ReflectionSaved);
    }

    /** Toggles the routine items with id `id` and saves the routine, whether
        or not any item matched. */
    method UpdateRoutine(id: string)
      requires Valid()
      modifies this`routine, this`persisted
      ensures Valid()
      ensures routine == ToggleItems(old(routine), id)
      ensures persisted == old(persisted)[RoutineKey := RoutineRecord(routine)]
    {
      routine := ToggleItems(routine, id);
      persisted := persisted[RoutineKey := RoutineRecord(routine)];
    }
  }

  /** The timer of an earlier toast clears a later toast: after two toasts
      and one fired timer nothing is shown, though a timer is still pending. */
  method EarlierTimerClearsLaterToast(saved: map<StorageKey, Record>)
    requires WellTyped(saved)
  {
    var s := new RecoveryStore.Mount(saved, 0);
    s.ShowToast(LessonDone);
    s.ShowToast(ReflectionSaved);
    assert s.notification == Some(ReflectionSaved);
    s.TimerFires();
    assert s.notification == None && s.pendingTimers == 1;
  }

  /** Toggling a routine item twice brings back the saved routine, and a
      check-in leaves the routine and journal alone. */
  method SessionScenario(saved: map<StorageKey, Record>, draft: CheckIn)
    requires WellTyped(saved)
  {
    var s := new RecoveryStore.Mount(saved, 0);
    var before := s.routine;
    s.UpdateRoutine("3");
    s.UpdateRoutine("3");
    ToggleTwice(before, "3");
    assert s.routine == before;
    var journal := s.journals;
    s.AddCheckIn(draft, "c1", 1000);
    assert s.routine == before && s.journals == journal;
    assert s.checkIns[0].id == "c1" && s.checkIns[0].date == 1000;
  }
}
