/** The statistics slice of src/features/statsSlice/statesSlice.ts: the
    leaderboard aggregation of `fetchUserRankings`, the active-user count of
    `fetchActiveUsersCount` and the reducers over `StatsState`. Store reads
    become parameters: the `users` node as its entries in enumeration order
    (absent when the node does not exist), the daily challenges per user and
    the weekly challenges per key. */
module StatsSlice {
  import opened Wrappers
  import opened Types
  import JsArray

  /** One entry of the `users` node: the user id and its `displayName`. */
  type UserEntry = (string, Option<string>)

  /** `Object.values(node).filter(c => c.isCompleted).length` */
  function CompletedIn(node: map<string, Challenge>): nat {
    |set k | k in node && node[k].isCompleted|
  }

  /** The number of completed weekly challenges, one figure for everybody. */
  function WeeklyCompleted(weekly: map<string, Challenge>): nat {
    CompletedIn(weekly)
  }

  /** The completed daily challenges of `userId` (0 without daily data). */
  function DailyCompleted(daily: map<string, map<string, Challenge>>, userId: string): nat {
    if userId in daily then CompletedIn(daily[userId]) else 0
  }

  /** `user.displayName || "User " + userId.slice(0, 6)` */
  function UserName(userId: string, displayName: Option<string>): (name: string)
    ensures name != []
    ensures displayName.Some? && displayName.value != "" ==> name == displayName.value
    ensures displayName.None? || displayName.value == "" ==>
      && |name| == 5 + (if |userId| < 6 then |userId| else 6)
      && name[..5] == "User "
      && name[5..] == userId[..|name| - 5]
  {
    if displayName.Some? && displayName.value != "" then displayName.value
    else "User " + userId[..if |userId| < 6 then |userId| else 6]
  }

  /** The row pushed for one user before sorting. */
  function RankingRow(user: UserEntry, daily: map<string, map<string, Challenge>>, weeklyCount: nat): UserRanking {
    UserRanking(user.0, UserName(user.0, user.1), DailyCompleted(daily, user.0) + weeklyCount, None)
  }

  /** The comparator `(a, b) => b.completedChallenges - a.completedChallenges`
      as a sort key: ascending in this key is descending in the count. */
  function Descending(u: UserRanking): int {
    -u.completedChallenges
  }

  /** `.map((user, index) => ({ ...user, rank: index + 1 }))` */
  function Ranked(rows: seq<UserRanking>): (r: seq<UserRanking>)
    ensures |r| == |rows|
    ensures forall i :: 0 <= i < |r| ==> r[i].rank == Some(i + 1)
  {
    seq(|rows|, i requires 0 <= i < |rows| => rows[i].(rank := Some(i + 1)))
  }

  /** The rows with their rank dropped. */
  function Unranked(rows: seq<UserRanking>): (r: seq<UserRanking>)
    ensures |r| == |rows|
    ensures forall i :: 0 <= i < |r| ==> r[i] == rows[i].(rank := None)
  {
    if rows == [] then [] else [rows[0].(rank := None)] + Unranked(rows[1..])
  }

  lemma UnrankedCons(a: UserRanking, s: seq<UserRanking>)
    ensures Unranked([a] + s) == [a.(rank := None)] + Unranked(s)
  {
    assert ([a] + s)[1..] == s;
  }

  lemma UnrankRanked(rows: seq<UserRanking>)
    requires forall i :: 0 <= i < |rows| ==> rows[i].rank.None?
    ensures Unranked(Ranked(rows)) == rows
  {
  }

  /** The rows `fetchUserRankings` pushes, one per user, in the order of the
      `users` node. */
  function Rows(users: seq<UserEntry>, daily: map<string, map<string, Challenge>>,
                weekly: map<string, Challenge>): (r: seq<UserRanking>)
    ensures |r| == |users|
  {
    seq(|users|, i requires 0 <= i < |users| => RankingRow(users[i], daily, WeeklyCompleted(weekly)))
  }

  /** The weekly term is the same for every user: two users' counts differ
      only by their daily completions, and a user without daily data gets
      the weekly term alone. */
  lemma WeeklyTermShared(users: seq<UserEntry>, daily: map<string, map<string, Challenge>>,
                         weekly: map<string, Challenge>, i: nat, j: nat)
    requires i < |users| && j < |users|
    ensures var rows := Rows(users, daily, weekly);
      rows[i].completedChallenges - DailyCompleted(daily, users[i].0)
      == rows[j].completedChallenges - DailyCompleted(daily, users[j].0)
      == WeeklyCompleted(weekly)
    ensures users[i].0 !in daily ==> Rows(users, daily, weekly)[i].completedChallenges == WeeklyCompleted(weekly)
  {
  }

  /** The loop of `fetchUserRankings` over the `users` node: one row per
      user, with the daily count (when the user has daily data) plus the
      weekly count, and no rank. */
  method CollectRows(entries: seq<UserEntry>, daily: map<string, map<string, Challenge>>,
                     weekly: map<string, Challenge>)
    returns (rows: seq<UserRanking>)
    ensures rows == Rows(entries, daily, weekly)
  {
    var weeklyCompletedCount := WeeklyCompleted(weekly);
    rows := [];
    for i := 0 to |entries|
      invariant rows == Rows(entries[..i], daily, weekly)
    {
      var userId := entries[i].0;
      var completedCount := 0;
      if userId in daily {
        completedCount := completedCount + CompletedIn(daily[userId]);
      }
      completedCount := completedCount + weeklyCompletedCount;
      RowsNext(entries, i, daily, weekly);
      rows := rows + [UserRanking(userId, UserName(userId, entries[i].1), completedCount, None)];
    }
    JsArray.TakeAll(entries);
  }

  /** `fetchUserRankings`: one row per user in the `users` node, its count
      being the user's completed daily challenges plus the completed weekly
      challenges; the rows sorted by count, highest first (ties keep the
      order of the node), then ranked 1, 2, ... by position. Without a
      `users` node the result is empty. */
  method FetchUserRankings(users: Option<seq<UserEntry>>, daily: map<string, map<string, Challenge>>,
                           weekly: map<string, Challenge>)
    returns (rankings: seq<UserRanking>)
    ensures users.None? ==> rankings == []
    ensures users.Some? ==> |rankings| == |users.value|
    ensures forall i :: 0 <= i < |rankings| ==> rankings[i].rank == Some(i + 1)
    ensures forall i, j :: 0 <= i < j < |rankings| ==>
      rankings[i].completedChallenges >= rankings[j].completedChallenges
    ensures users.Some? ==> multiset(Unranked(rankings)) == multiset(Rows(users.value, daily, weekly))
    ensures users.Some? ==> forall v :: JsArray.WithKey(Unranked(rankings), Descending, v)
                                     == JsArray.WithKey(Rows(users.value, daily, weekly), Descending, v)
    ensures users.Some? ==> rankings == Ranked(JsArray.SortBy(Rows(users.value, daily, weekly), Descending))
  {
    if users.None? {
      return [];
    }
    var rows := CollectRows(users.value, daily, weekly);
    var sorted := JsArray.SortBy(rows, Descending);
    rankings := Ranked(sorted);
    RankedRows(rows);
    assert Unranked(rows) == rows;
    forall v ensures JsArray.WithKey(Unranked(rankings), Descending, v) == JsArray.WithKey(rows, Descending, v) {
      TiesKeepUserOrder(rows, v);
    }
  }

  /** The rows of one more entry are the rows so far and that entry's row. */
  lemma RowsNext(users: seq<UserEntry>, i: nat,
                 daily: map<string, map<string, Challenge>>, weekly: map<string, Challenge>)
    requires i < |users|
    ensures Rows(users[..i + 1], daily, weekly)
         == Rows(users[..i], daily, weekly) + [RankingRow(users[i], daily, WeeklyCompleted(weekly))]
  {
  }

  /** Sorting and ranking rows that carry no rank yet: the ranked rows are
      the input rows, permuted, with the counts from highest to lowest. */
  lemma RankedRows(rows: seq<UserRanking>)
    requires forall i :: 0 <= i < |rows| ==> rows[i].rank.None?
    ensures var r := Ranked(JsArray.SortBy(rows, Descending));
      && multiset(Unranked(r)) == multiset(rows)
      && forall i, j :: 0 <= i < j < |r| ==> r[i].completedChallenges >= r[j].completedChallenges
  {
    var sorted := JsArray.SortBy(rows, Descending);
    JsArray.SortBySorted(rows, Descending);
    forall i | 0 <= i < |sorted| ensures sorted[i].rank.None? {
      assert sorted[i] in multiset(rows);
    }
    UnrankRanked(sorted);
  }

  /** Sorting keeps, among users with the same count, the order in which the
      `users` node lists them (`v` is the sort key, the negated count). */
  lemma {:induction false} TiesKeepUserOrder(rows: seq<UserRanking>, v: int)
    ensures JsArray.WithKey(Unranked(Ranked(JsArray.SortBy(rows, Descending))), Descending, v)
         == JsArray.WithKey(Unranked(rows), Descending, v)
  {
    UnrankedCommutes(rows);
    JsArray.SortByStable(Unranked(rows), Descending, v);
  }

  /** Dropping ranks commutes with the sort, which only looks at counts. */
  lemma {:induction false} UnrankedCommutes(rows: seq<UserRanking>)
    ensures Unranked(Ranked(JsArray.SortBy(rows, Descending))) == JsArray.SortBy(Unranked(rows), Descending)
  {
    UnrankedSort(rows);
    var s := JsArray.SortBy(rows, Descending);
    assert Unranked(Ranked(s)) == Unranked(s);
  }

  lemma {:induction false} UnrankedSort(rows: seq<UserRanking>)
    ensures Unranked(JsArray.SortBy(rows, Descending)) == JsArray.SortBy(Unranked(rows), Descending)
  {
    if rows != [] {
      var p := rows[..|rows| - 1];
      var x := rows[|rows| - 1];
      var u := Unranked(rows);
      assert u[..|u| - 1] == Unranked(p);
      assert u[|u| - 1] == x.(rank := None);
      UnrankedSort(p);
      UnrankedInsert(x, JsArray.SortBy(p, Descending));
    }
  }

  lemma {:induction false} UnrankedInsert(x: UserRanking, s: seq<UserRanking>)
    ensures Unranked(JsArray.Insert(x, s, Descending)) == JsArray.Insert(x.(rank := None), Unranked(s), Descending)
  {
    if s == [] {
      assert Unranked([x]) == [x.(rank := None)];
    } else {
      var u := Unranked(s);
      assert u == [s[0].(rank := None)] + Unranked(s[1..]) by {
        assert s == [s[0]] + s[1..];
        UnrankedCons(s[0], s[1..]);
      }
      assert u[1..] == Unranked(s[1..]);
      if Descending(s[0]) <= Descending(x) {
        UnrankedInsert(x, s[1..]);
        UnrankedCons(s[0], JsArray.Insert(x, s[1..], Descending));
      } else {
        UnrankedCons(x, s);
      }
    }
  }

  // ---------------------------------------------------------------------
  // Active users

  /** `fetchActiveUsersCount`: the number of users recorded under the day
      `today` in the `userActivities` node, 0 when that day is absent. */
  function ActiveUsersCount(activity: map<string, map<string, bool>>, today: string): (n: nat)
    ensures today !in activity ==> n == 0
  {
    if today in activity then |activity[today].Keys| else 0
  }

  /** `updateUserActivity`: records `userId` as active on `today`. */
  function MarkActive(activity: map<string, map<string, bool>>, today: string, userId: string): (r: map<string, map<string, bool>>)
    ensures today in r && userId in r[today]
  {
    var day := if today in activity then activity[today] else map[];
    activity[today := day[userId := true]]
  }

  /** Recording activity counts each user once per day: the count goes up by
      one for a user not yet seen today and stays put otherwise. */
  lemma MarkActiveCount(activity: map<string, map<string, bool>>, today: string, userId: string)
    ensures ActiveUsersCount(MarkActive(activity, today, userId), today)
         == ActiveUsersCount(activity, today)
            + (if today in activity && userId in activity[today] then 0 else 1)
  {
    var day := if today in activity then activity[today] else map[];
    if userId in day {
      assert day[userId := true].Keys == day.Keys;
    } else {
      assert day[userId := true].Keys == day.Keys + {userId};
    }
  }

  // ---------------------------------------------------------------------
  // Reducers

  /** `action.error.message || fallback` */
  function MessageOr(message: Option<string>, fallback: string): (r: string)
    ensures r == fallback || message == Some(r)
    ensures message.Some? && message.value != "" ==> r == message.value
    ensures message.None? || message.value == "" ==> r == fallback
  {
    if message.Some? && message.value != "" then message.value else fallback
  }

  class StatsState {
    var activeUsersCount: int
    var userRankings: seq<UserRanking>
    var rankingsLoading: bool
    var rankingsError: Option<string>
    var loading: bool
    var error: Option<string>

    predicate IsInitial()
      reads this
    {
      activeUsersCount == 0 && userRankings == [] && !rankingsLoading
      && rankingsError.None? && !loading && error.None?
    }

    constructor ()
      ensures IsInitial()
    {
      activeUsersCount := 0;
      userRankings := [];
      rankingsLoading := false;
      rankingsError := None;
      loading := false;
      error := None;
    }

    method ActiveUsersPending()
      modifies this
      ensures loading
      ensures activeUsersCount == old(activeUsersCount) && error == old(error)
      ensures userRankings == old(userRankings) && rankingsLoading == old(rankingsLoading)
      ensures rankingsError == old(rankingsError)
    {
      loading := true;
    }

    method ActiveUsersFulfilled(count: nat)
      modifies this
      ensures activeUsersCount == count && !loading
      ensures error == old(error)
      ensures userRankings == old(userRankings) && rankingsLoading == old(rankingsLoading)
      ensures rankingsError == old(rankingsError)
    {
      activeUsersCount := count;
      loading := false;
    }

    method ActiveUsersRejected(message: Option<string>)
      modifies this
      ensures error == Some(MessageOr(message, "Failed to fetch active users")) && !loading
      ensures activeUsersCount == old(activeUsersCount)
      ensures userRankings == old(userRankings) && rankingsLoading == old(rankingsLoading)
      ensures rankingsError == old(rankingsError)
    {
      error := Some(MessageOr(message, "Failed to fetch active users"));
      loading := false;
    }

    method RankingsPending()
      modifies this
      ensures rankingsLoading && rankingsError.None?
      ensures userRankings == old(userRankings)
      ensures activeUsersCount == old(activeUsersCount) && loading == old(loading) && error == old(error)
    {
      rankingsLoading := true;
      rankingsError := None;
    }

    method RankingsFulfilled(payload: seq<UserRanking>)
      modifies this
      ensures userRankings == payload && !rankingsLoading
      ensures rankingsError == old(rankingsError)
      ensures activeUsersCount == old(activeUsersCount) && loading == old(loading) && error == old(error)
    {
      userRankings := payload;
      rankingsLoading := false;
    }

    method RankingsRejected(message: Option<string>)
      modifies this
      ensures rankingsError == Some(MessageOr(message, "Failed to fetch user rankings")) && !rankingsLoading
      ensures userRankings == old(userRankings)
      ensures activeUsersCount == old(activeUsersCount) && loading == old(loading) && error == old(error)
    {
      rankingsError := Some(MessageOr(message, "Failed to fetch user rankings"));
      rankingsLoading := false;
    }
  }

  /** The `error.message` Redux Toolkit puts on the rejected action of a
      thunk that returns `rejectWithValue(...)`; the value itself goes to
      the payload, which the reducer does not read. */
  const RejectedWithValue := "Rejected"

  /** A failed leaderboard load: `fetchUserRankings` rejects through
      `rejectWithValue`, so the reducer sees the constant message and the
      fallback text is never shown. */
  method FailedRankings(state: StatsState)
    modifies state
    ensures !state.rankingsLoading && state.rankingsError == Some(RejectedWithValue)
    ensures state.userRankings == old(state.userRankings)
  {
    state.RankingsPending();
    state.RankingsRejected(Some(RejectedWithValue));
  }

  /** The leaderboard flow: pending, then the fetched rankings; the state
      then holds a ranked, count-ordered leaderboard. */
  method LoadRankings(state: StatsState, users: Option<seq<UserEntry>>,
                      daily: map<string, map<string, Challenge>>, weekly: map<string, Challenge>)
    modifies state
    ensures !state.rankingsLoading && state.rankingsError.None?
    ensures forall i :: 0 <= i < |state.userRankings| ==> state.userRankings[i].rank == Some(i + 1)
    ensures forall i, j :: 0 <= i < j < |state.userRankings| ==>
      state.userRankings[i].completedChallenges >= state.userRankings[j].completedChallenges
    ensures users.None? ==> state.userRankings == []
  {
    state.RankingsPending();
    var rankings := FetchUserRankings(users, daily, weekly);
    state.RankingsFulfilled(rankings);
  }
}
