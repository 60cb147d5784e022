/** The records the recovery engine keeps: the user's profile, check-ins,
    journal entries and routine items (types.ts). Timestamps are
    milliseconds since the epoch rather than ISO-8601 strings. */
module Types {

  datatype Option<T> = None | Some(value: T)

  /** The three kinds of user; only the first two accrue sober days. */
  datatype UserRole = Addiction | Recovery | FamilyFriend

  datatype TrafficLightStatus = Green | Amber | Red

  datatype RiskLevel = Low | Medium | High

  datatype TrustPermissions = TrustPermissions(
    shareStatus: bool,
    shareMilestones: bool,
    shareRoutine: bool,
    shareInsights: bool)

  datatype TrustConnection = TrustConnection(
    id: string,
    name: string,
    role: UserRole,
    permissions: TrustPermissions,
    status: TrafficLightStatus,
    riskLevel: Option<RiskLevel>)

  datatype UserProfile = UserProfile(
    id: string,
    role: UserRole,
    name: string,
    isPremium: bool,
    onboardingCompleted: bool,
    joinDate: int,
    resilienceScore: int,
    totalSoberDays: nat,
    totalCheckInDays: nat,
    currentStatus: TrafficLightStatus,
    riskLevel: RiskLevel,
    dailySpend: Option<int>,
    dailyHours: Option<int>,
    reasonsToStaySober: seq<string>,
    isLighthouse: bool,
    isVaultLocked: bool,
    activeTrustKey: Option<string>,
    connections: seq<TrustConnection>,
    completedLessons: seq<string>)

  /** The craving levels a check-in may report; a check-in may also report none of them. */
  datatype Craving = NoCravings | Mild | Strong

  datatype FocusArea = MostlyMe | HalfHalf | MostlyThem

  datatype InteractionQuality = Positive | Neutral | Tense | NoInteraction

  datatype CheckIn = CheckIn(
    id: string,
    date: int,
    mood: int,
    notes: string,
    cravings: Option<Craving>,
    triggers: Option<seq<string>>,
    focusArea: Option<FocusArea>,
    boundaryMaintained: Option<bool>,
    interactionQuality: Option<InteractionQuality>,
    selfCareCompleted: Option<bool>)

  datatype JournalEntry = JournalEntry(
    id: string,
    date: int,
    content: string,
    tags: Option<seq<string>>)

  datatype RoutineCategory = Mind | Body | Connection | Routine

  datatype RoutineItem = RoutineItem(
    id: string,
    name: string,
    completed: bool,
    category: RoutineCategory)
}
