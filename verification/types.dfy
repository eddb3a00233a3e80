/** The records of src/utils/types/index.ts. Optional (`?`) and nullable
    fields are `Option`s; JavaScript numbers that hold counters, targets and
    timestamps are unbounded integers. */
module Types {
  import opened Wrappers

  datatype ChallengeType = Weekly | Daily

  /** One challenge record as the store holds it. `id` is absent in the store
      (the record's key plays that role) and is filled in when a snapshot is
      turned into a list. `isSingleUse` is not declared by the record type but
      is read by the challenge editor, so it is carried as an optional field. */
  datatype Challenge = Challenge(
    id: Option<string>,
    title: string,
    target: int,
    current: int,
    isCompleted: bool,
    kind: ChallengeType,
    userId: Option<string>,
    createdAt: int,
    lastResetDate: Option<string>,
    countCompleted: int,
    group: Option<string>,
    isCompletedData: Option<seq<int>>,
    users: Option<seq<string>>,
    isSingleUse: Option<bool>)

  /** `challenge.group` is truthy: present and not the empty string. */
  predicate HasGroup(c: Challenge) {
    c.group.Some? && c.group.value != ""
  }

  /** The signed-in user as the authentication state keeps it (the
      serialisable projection of a Firebase user). */
  datatype User = User(
    uid: string,
    email: Option<string>,
    displayName: Option<string>,
    emailVerified: bool,
    photoURL: Option<string>,
    providerId: string)

  /** One leaderboard row; `rank` is absent until ranks are assigned. */
  datatype UserRanking = UserRanking(
    userId: string,
    userName: string,
    completedChallenges: int,
    rank: Option<int>)
}
