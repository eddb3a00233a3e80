# Habit tracker core in Dafny

This project models the bookkeeping core of a React/Firebase habit tracker.
Users keep daily challenges (their own, optionally grouped, re-armed every day)
and share a set of weekly challenges. The model covers:

- **Challenges slice** (`challenges_slice.dfy`). How store snapshots become the
  challenge lists. It covers the "mark complete" step with its fan-out to the
  weekly challenges, adding and deleting a daily challenge, the listener
  registry, and the reducers of the `ChallengesState` record.
- **Main page** (`main_page.dfy`). The daily re-arm patch written when a day
  has passed, the grouping of daily challenges by group name, and the draft
  the page hands to `addDailyChallenge`.
- **Challenge editor** (`challenge_modal.dfy`). The add/edit form: its
  validation guard, its group selector and the prefill effect.
- **Statistics slice** (`stats_slice.dfy`). The active-user count, the
  user ranking (counting, stable descending sort, rank numbering) and the
  slice's reducers.
- **Statistics page** (`statistic_page.dfy`). The per-title completion chart:
  date keys, counts per day, date-ordered labels and one series per title.
- **Auth slice and auth page** (`auth_slice.dfy`, `auth_page.dfy`). The
  `AuthState` reducers and thunk transitions, the projection of a provider
  user, and the sign-in form's validation, submit and error-text logic.
- **JavaScript semantics** (`js_text.dfy`, `js_array.dfy`). `trim`,
  `parseInt`, `Number`, `String(n)`, `padStart`, UTF-16 `length`,
  `Array.prototype.sort` as a stable sort, and first-occurrence
  de-duplication.

The store (a Firebase realtime database) is the `Database` class. It holds a
`weekly` map (key to challenge) and a `daily` map (user id to key to
challenge). A one-shot read followed by writes is modelled as one sequential
step of a method on that class. Slice state records become classes whose
methods are the reducers.

Where the design notes and the code disagree, the model follows the code:

- `countCompleted` is raised by every increment that lands at or above the
  target. This includes increments past completion, not just the first one
  (`IncrementsEffect`, `TargetThreeScenario`).
- The fan-out after a daily completion bumps every weekly challenge, already
  completed ones included, and never raises their `countCompleted`
  (`FanOutRepeated`).
- The ranking adds the global weekly completion count to every user, not
  just to the participants of a weekly challenge (`WeeklyTermShared`).
- Registering stores the new user in `localStorage` exactly as signing in
  does. So the next visit to the sign-in page restores that user, although
  registration itself signs nobody in (`RegisterThenReload`).

## Model

| member | source | states |
|---|---|---|
| ChallengesSlice.Stamp | src/features/challengesSlice/challengesSlice.ts:23-27 | the listed record carries the store key as `id` and, for a daily list, the owner's id; every other field is the stored one |
| ChallengesSlice.Listed | src/features/challengesSlice/challengesSlice.ts:23-27 | one record per store entry, in key order, each stamped with its key |
| ChallengesSlice.WeeklyList | src/features/challengesSlice/challengesSlice.ts:19-31 | a null node gives the empty list; otherwise one record per entry, each with its key as id |
| ChallengesSlice.DailyList | src/features/challengesSlice/challengesSlice.ts:40-50 | a missing node gives the empty list; otherwise one record per entry with its key as id and the user's id as owner |
| ChallengesSlice.FetchDailyChallenges | src/features/challengesSlice/challengesSlice.ts:37-51 | without a user id nothing is read and the list is empty; otherwise the user's daily list |
| ChallengesSlice.RemoveById | src/features/challengesSlice/challengesSlice.ts:263-270 | the survivors are exactly the entries of the list whose id differs |
| ChallengesSlice.RemoveByIdAppend | src/features/challengesSlice/challengesSlice.ts:263-270 | removal keeps order: it distributes over concatenation |
| ChallengesSlice.RemoveByIdAbsent | src/features/challengesSlice/challengesSlice.ts:263-270 | deleting an id no entry carries leaves the list unchanged |
| ChallengesSlice.RemoveByIdIdempotent | src/features/challengesSlice/challengesSlice.ts:263-270 | deleting twice is deleting once |
| ChallengesSlice.RemoveAgreesWithStore | src/features/challengesSlice/challengesSlice.ts:88-95 | the reducer's filter on the listed records equals listing the store after the child is removed |
| ChallengesSlice.ListedAppend | src/features/challengesSlice/challengesSlice.ts:23-27 | listing distributes over concatenated entries |
| ChallengesSlice.Increment | src/features/challengesSlice/challengesSlice.ts:118-123 | current grows by one; completed iff it reaches the target; countCompleted grows exactly when completed; no other field changes |
| ChallengesSlice.IncrementsEffect | src/features/challengesSlice/challengesSlice.ts:118-123 | after n increments current grew by n, completion is current+n >= target, and countCompleted grew by the number of landings at or above the target |
| ChallengesSlice.TargetThreeScenario | src/features/challengesSlice/challengesSlice.ts:118-123 | target 3 from zero: the third mark completes with one completion counted, a fourth counts a second |
| ChallengesSlice.BumpWeekly | src/features/challengesSlice/challengesSlice.ts:140-157 | a weekly challenge's current grows by one and its completion follows the target; countCompleted and all other fields are kept |
| ChallengesSlice.FanOut | src/features/challengesSlice/challengesSlice.ts:134-157 | every weekly challenge is bumped and no key is added or lost |
| ChallengesSlice.FanOutRepeated | src/features/challengesSlice/challengesSlice.ts:134-157 | n fan-outs raise every weekly challenge, completed or not, by exactly n |
| ChallengesSlice.FinalizeDraft | src/features/challengesSlice/challengesSlice.ts:63-77 | fails with "User ID is required" iff the user id is empty; otherwise the draft with zero progress, not completed, owned by the user and stamped with the time, all else kept |
| ChallengesSlice.Database.constructor | src/features/challengesSlice/challengesSlice.ts:97-110 | the store holds the given weekly and daily trees |
| ChallengesSlice.Database.IncrementChallengeProgress | src/features/challengesSlice/challengesSlice.ts:97-169 | a missing challenge writes nothing; otherwise the challenge is replaced by its increment, and a completed daily challenge also fans out to all weekly challenges |
| ChallengesSlice.Database.AddDailyChallenge | src/features/challengesSlice/challengesSlice.ts:54-86 | fails iff the user id is empty, writing nothing; otherwise the finalised draft is stored under the new key and returned with that key as id |
| ChallengesSlice.Database.DeleteDailyChallenge | src/features/challengesSlice/challengesSlice.ts:88-95 | removes exactly that child of the user's daily tree, nothing if absent, and yields the id |
| ChallengesSlice.SubscriptionRegistry.constructor | src/features/challengesSlice/challengesSlice.ts:172 | no callbacks are registered |
| ChallengesSlice.SubscriptionRegistry.UnsubscribeAll | src/features/challengesSlice/challengesSlice.ts:172-177 | every registered callback runs once in order, and the registry ends empty |
| ChallengesSlice.SubscriptionRegistry.SubscribeToChallenges | src/features/challengesSlice/challengesSlice.ts:180-217 | old listeners are detached first; then the weekly listener, and the daily one only with a user id, are registered |
| ChallengesSlice.ChallengesState.constructor | src/features/challengesSlice/challengesSlice.ts:8-13 | empty lists, not loading, no error |
| ChallengesSlice.ChallengesState.SetWeeklyChallenges | src/features/challengesSlice/challengesSlice.ts:223-225 | replaces the weekly list only |
| ChallengesSlice.ChallengesState.SetDailyChallenges | src/features/challengesSlice/challengesSlice.ts:226-228 | replaces the daily list only |
| ChallengesSlice.ChallengesState.ResetChallenges | src/features/challengesSlice/challengesSlice.ts:229 | back to the initial state |
| ChallengesSlice.ChallengesState.FetchPending | src/features/challengesSlice/challengesSlice.ts:233-236 | loading, error cleared, lists kept |
| ChallengesSlice.ChallengesState.FetchWeeklyFulfilled | src/features/challengesSlice/challengesSlice.ts:237-240 | the weekly list is the payload and loading ends; the rest is kept |
| ChallengesSlice.ChallengesState.FetchDailyFulfilled | src/features/challengesSlice/challengesSlice.ts:252-255 | the daily list is the payload and loading ends; the rest is kept |
| ChallengesSlice.ChallengesState.FetchRejected | src/features/challengesSlice/challengesSlice.ts:241-247 | loading ends with the payload as error; the lists are kept |
| ChallengesSlice.ChallengesState.DeleteDailyFulfilled | src/features/challengesSlice/challengesSlice.ts:263-270 | the daily list loses exactly the entries with that id |
| MainPage.BuildResetPatch | src/pages/Main/Main.tsx:85-98 | the patch holds exactly the three reset entries of every challenge whose reset date is not today, and needsUpdate holds iff some challenge qualifies iff the patch is non-empty |
| MainPage.ThreeEntriesPerChallenge | src/pages/Main/Main.tsx:91-96 | a qualifying challenge gets exactly three patch entries |
| MainPage.ApplyPatch | src/pages/Main/Main.tsx:100-104 | a multi-path update keeps the set of challenges |
| MainPage.ResetAll | src/pages/Main/Main.tsx:88-98 | every challenge ends stamped with today; the ones already stamped are untouched; the others get zero progress and are not completed |
| MainPage.ApplyResetPatch | src/pages/Main/Main.tsx:100-104 | applying the built patch re-arms exactly the challenges not yet reset today |
| MainPage.CheckAndResetDailyChallenges | src/pages/Main/Main.tsx:77-105 | writes iff the user has data and some challenge is not reset today; then the user's tree is the re-armed one, otherwise nothing changes |
| MainPage.ResetTwiceSameDay | src/pages/Main/Main.tsx:77-105 | a second reset on the same day writes nothing, and afterwards no challenge needs a reset |
| MainPage.InGroup | src/pages/Main/Main.tsx:252-261 | a bucket is no longer than the list |
| MainPage.Ungrouped | src/pages/Main/Main.tsx:258-260 | the ungrouped list is no longer than the list |
| MainPage.BucketMembers | src/pages/Main/Main.tsx:252-260 | a bucket holds only challenges of the list with that group, the ungrouped list only challenges of the list without one |
| MainPage.GroupNamesAreBuckets | src/pages/Main/Main.tsx:253-256 | a group name has a bucket iff some challenge carries it |
| MainPage.GroupDailyChallenges | src/pages/Main/Main.tsx:248-264 | it throws (a TypeError from `push` on an inherited function) iff some challenge's group names an `Object.prototype` member; otherwise the buckets are keyed by exactly the groups present, each holding that group's challenges in list order, and the ungrouped list holds the rest in order |
| MainPage.InGroupAppend | src/pages/Main/Main.tsx:252-261 | bucketing distributes over concatenation |
| MainPage.UngroupedAppend | src/pages/Main/Main.tsx:258-260 | the ungrouped list distributes over concatenation |
| MainPage.GroupingPartition | src/pages/Main/Main.tsx:248-264 | every challenge lands, as often as it occurs, in its own group's bucket or in the ungrouped list, and nowhere else |
| MainPage.HandleAddChallenge | src/pages/Main/Main.tsx:151-172 | a draft exists iff a user is signed in; it has the given title, target and group, zero progress, daily type and today's reset date |
| MainPage.AddedChallengeSkipsTodaysReset | src/pages/Main/Main.tsx:151-172 | a challenge added today is stored already re-armed for today, so that day's reset leaves it alone |
| ChallengeModal.AddAllowedIff | src/components/ChallengeModal/ChallengeModal.tsx:71-76 | the add guard holds iff title and group are not blank and the target parses to a positive integer |
| ChallengeModal.FindById | src/components/ChallengeModal/ChallengeModal.tsx:50-52 | the first challenge with that id, or none iff no challenge has it |
| ChallengeModal.GroupsOf | src/components/ChallengeModal/ChallengeModal.tsx:97-105 | the groups of the list, repeats included, are exactly the group names |
| ChallengeModal.UniqueGroupsAreFirstOccurrences | src/components/ChallengeModal/ChallengeModal.tsx:97-105 | the reduce keeps each group once, at its first occurrence |
| ChallengeModal.AddUserGroup | src/components/ChallengeModal/ChallengeModal.tsx:96-111 | the options are the distinct existing groups, without duplicates, followed by "custom" |
| ChallengeModal.GroupOptionsExtend | src/components/ChallengeModal/ChallengeModal.tsx:97-105 | the options for a prefix of the list are a prefix of the options for the whole list |
| ChallengeModal.ChallengeEditor.constructor | src/components/ChallengeModal/ChallengeModal.tsx:37-42 | empty fields, group input hidden, not single-use |
| ChallengeModal.ChallengeEditor.HandleAdd | src/components/ChallengeModal/ChallengeModal.tsx:67-84 | edit mode with a user passes the form unchecked, target through Number; otherwise an allowed form calls add with the parsed positive target and clears title, target and flag; a refused one sets the error and calls nothing |
| ChallengeModal.ChallengeEditor.HandleChange | src/components/ChallengeModal/ChallengeModal.tsx:86-94 | "custom" shows the group input with an empty group; any other value hides it and selects that group |
| ChallengeModal.ChallengeEditor.OnEditToggle | src/components/ChallengeModal/ChallengeModal.tsx:48-65 | edit mode prefills from the first matching challenge, or changes nothing; leaving edit mode clears title, target and group and keeps the single-use flag |
| ChallengeModal.EditWithoutChanges | src/components/ChallengeModal/ChallengeModal.tsx:48-70 | saving an edited challenge untouched hands back its own title, target, group and flag |
| ChallengeModal.AddTwice | src/components/ChallengeModal/ChallengeModal.tsx:67-84 | after a successful add, an immediate second submit adds nothing and shows the error |
| StatsSlice.UserName | src/features/statsSlice/statesSlice.ts:75 | a non-empty display name is used; otherwise "User " followed by the first six characters of the id (fewer if shorter) |
| StatsSlice.Ranked | src/features/statsSlice/statesSlice.ts:81-83 | ranks are 1, 2, ... in list order |
| StatsSlice.Unranked | src/features/statsSlice/statesSlice.ts:81-83 | the rows without their rank field |
| StatsSlice.UnrankRanked | src/features/statsSlice/statesSlice.ts:81-83 | numbering rows and then dropping the ranks gives back the rows |
| StatsSlice.Rows | src/features/statsSlice/statesSlice.ts:59-78 | one row per user |
| StatsSlice.WeeklyTermShared | src/features/statsSlice/statesSlice.ts:52-71 | every user's count includes the same global weekly term; a user without daily data counts exactly that term |
| StatsSlice.CollectRows | src/features/statsSlice/statesSlice.ts:59-78 | the loop builds exactly one row per user, in user order |
| StatsSlice.FetchUserRankings | src/features/statsSlice/statesSlice.ts:26-91 | no users gives no rankings; otherwise exactly the users' rows stably sorted by descending count and ranked 1, 2, ...: a permutation, descending, and users with equal counts kept in their list order |
| StatsSlice.RankedRows | src/features/statsSlice/statesSlice.ts:81-83 | sorting and numbering keeps the rows as a multiset and orders them by descending count |
| StatsSlice.TiesKeepUserOrder | src/features/statsSlice/statesSlice.ts:81-83 | users with equal counts keep their order from the user list |
| StatsSlice.UnrankedCommutes | src/features/statsSlice/statesSlice.ts:81-83 | dropping ranks after sorting and numbering equals sorting the rank-less rows |
| StatsSlice.ActiveUsersCount | src/features/statsSlice/statesSlice.ts:17-24 | a day without records counts no users |
| StatsSlice.MarkActive | src/utils/services/userActivityService/userActivityService.ts:4-7 | the user is recorded under today |
| StatsSlice.MarkActiveCount | src/utils/services/userActivityService/userActivityService.ts:4-7 | recording raises the day's count by one for a new user and leaves it for a repeat |
| StatsSlice.MessageOr | src/features/statsSlice/statesSlice.ts:106-109 | a non-empty message is used; a missing or empty one gives the fallback |
| StatsSlice.StatsState.constructor | src/features/statsSlice/statesSlice.ts:8-15 | zero users, no rankings, nothing loading, no errors |
| StatsSlice.StatsState.ActiveUsersPending | src/features/statsSlice/statesSlice.ts:99-101 | loading, all else kept |
| StatsSlice.StatsState.ActiveUsersFulfilled | src/features/statsSlice/statesSlice.ts:102-105 | the count is the payload and loading ends |
| StatsSlice.StatsState.ActiveUsersRejected | src/features/statsSlice/statesSlice.ts:106-109 | loading ends with the message or "Failed to fetch active users" |
| StatsSlice.StatsState.RankingsPending | src/features/statsSlice/statesSlice.ts:110-113 | rankings loading and their error cleared |
| StatsSlice.StatsState.RankingsFulfilled | src/features/statsSlice/statesSlice.ts:114-117 | the rankings are the payload and their loading ends |
| StatsSlice.StatsState.RankingsRejected | src/features/statsSlice/statesSlice.ts:118-122 | rankings loading ends with the message or "Failed to fetch user rankings" |
| StatsSlice.FailedRankings | src/features/statsSlice/statesSlice.ts:84-122 | a failed load ends not loading with the error "Rejected", the rankings kept |
| StatsSlice.LoadRankings | src/features/statsSlice/statesSlice.ts:26-122 | a successful load leaves rankings ranked 1, 2, ... in descending count order, not loading and without error |
| StatisticPage.FormatDateShape | src/pages/StatisticPage/StatisticPage.tsx:9-15 | the key is two digits of day, a slash, two digits of month counted from 1, a slash, the year |
| StatisticPage.DateOrdinalOfFormat | src/pages/StatisticPage/StatisticPage.tsx:59-63 | the sort comparator reads a key back as year, month and day |
| StatisticPage.EarlierDateSortsFirst | src/pages/StatisticPage/StatisticPage.tsx:59-63 | an earlier day's key sorts before a later day's |
| StatisticPage.FormatDateInjective | src/pages/StatisticPage/StatisticPage.tsx:9-15 | different days give different keys |
| StatisticPage.DateKeys | src/pages/StatisticPage/StatisticPage.tsx:43-44 | one key per timestamp |
| StatisticPage.DateCountsSnoc | src/pages/StatisticPage/StatisticPage.tsx:45 | one more timestamp raises its day's count by one, starting from 0 |
| StatisticPage.CountDates | src/pages/StatisticPage/StatisticPage.tsx:41-46 | the map counts, for each day, the timestamps that fall on it |
| StatisticPage.Titles | src/pages/StatisticPage/StatisticPage.tsx:37-38 | one title per challenge |
| StatisticPage.LastWithTitle | src/pages/StatisticPage/StatisticPage.tsx:48-51 | the challenge whose data a title keeps is in the list and carries that title |
| StatisticPage.TitleCountsSnoc | src/pages/StatisticPage/StatisticPage.tsx:48-51 | a later challenge with the same title replaces the earlier one's counts |
| StatisticPage.Charted | src/pages/StatisticPage/StatisticPage.tsx:48-51 | the challenges that get an entry are no more than the list |
| StatisticPage.ChartedTitles | src/pages/StatisticPage/StatisticPage.tsx:48-51 | a title gets an entry iff some challenge carries it and it is not `"__proto__"` |
| StatisticPage.DataByTitle | src/pages/StatisticPage/StatisticPage.tsx:35-52 | the titles other than `"__proto__"` in first-occurrence order, and for each the day counts of the last challenge with it |
| StatisticPage.SetToSeq | src/pages/StatisticPage/StatisticPage.tsx:59 | the array holds each member of the set exactly once |
| StatisticPage.ChartLabels | src/pages/StatisticPage/StatisticPage.tsx:55-63 | the labels are exactly the days any title has, without duplicates, in date order |
| StatisticPage.Series | src/pages/StatisticPage/StatisticPage.tsx:68 | one value per label: that day's count, or 0 |
| StatisticPage.SeriesSum | src/pages/StatisticPage/StatisticPage.tsx:43-46 | when every key is a label, the series adds up to the number of keys |
| StatisticPage.Datasets | src/pages/StatisticPage/StatisticPage.tsx:66-71 | one dataset per title in order, each with one value per label |
| StatisticPage.DatasetsCountCompletions | src/pages/StatisticPage/StatisticPage.tsx:66-71 | each dataset holds at each label the completions that day of the last challenge with its title, and adds up to all of them |
| StatisticPage.StatisticChart | src/pages/StatisticPage/StatisticPage.tsx:31-71 | no chart iff there are no challenges; otherwise labels are exactly the days with a completion of a charted challenge, in date order, and one dataset per distinct title other than `"__proto__"` counts, per day, the completions of the last challenge with that title |
| AuthSlice.ProjectionKeepsIdentity | src/features/authSlice/authSlice.ts:32-39 | two provider users project alike iff they agree on the six kept fields |
| AuthSlice.AuthState.constructor | src/features/authSlice/authSlice.ts:23-29 | no user, not loading, no error, no address pending, not verified |
| AuthSlice.AuthState.SetUser | src/features/authSlice/authSlice.ts:216-220 | the user is the payload, verification follows it, the error is cleared |
| AuthSlice.AuthState.SetLoading | src/features/authSlice/authSlice.ts:223-225 | only the loading flag changes |
| AuthSlice.AuthState.SetError | src/features/authSlice/authSlice.ts:228-230 | only the error changes |
| AuthSlice.AuthState.SetEmailForVerification | src/features/authSlice/authSlice.ts:233-235 | only the pending address changes |
| AuthSlice.AuthState.VerifyEmail | src/features/authSlice/authSlice.ts:238-242 | with a user, the state becomes verified; without one nothing changes |
| AuthSlice.AuthState.ResetAuthState | src/features/authSlice/authSlice.ts:245 | back to the initial state |
| AuthSlice.AuthState.AuthPending | src/features/authSlice/authSlice.ts:250-253 | loading with the error cleared |
| AuthSlice.AuthState.LoginFulfilled | src/features/authSlice/authSlice.ts:254-258 | signed in as the payload, verification copied, loading ends |
| AuthSlice.AuthState.AuthRejected | src/features/authSlice/authSlice.ts:259-262 | loading ends with the payload as error, the user is kept |
| AuthSlice.AuthState.RegisterFulfilled | src/features/authSlice/authSlice.ts:269-272 | loading ends and the new address awaits verification; nobody is signed in |
| AuthSlice.AuthState.LogoutFulfilled | src/features/authSlice/authSlice.ts:279-282 | the user is gone and not verified |
| AuthSlice.SignIn | src/features/authSlice/authSlice.ts:42-63 | a successful login ends signed in as the projected provider user, not loading, without error |
| AuthSlice.FailedSignIn | src/features/authSlice/authSlice.ts:56-61 | a failed login keeps the previous user and shows the message |
| AuthSlice.Register | src/features/authSlice/authSlice.ts:65-95 | a registration leaves the user unchanged and puts the new address up for verification |
| AuthSlice.Logout | src/features/authSlice/authSlice.ts:177-184 | logging out from any state ends in the initial state |
| AuthPage.ValidateForm | src/pages/AuthPage/AuthPage.tsx:43-53 | passes iff the email has an "@" and the password has at least six UTF-16 units; the email message comes first |
| AuthPage.PasswordLengthBounds | src/pages/AuthPage/AuthPage.tsx:48 | six characters always pass the length rule and fewer than three never do |
| AuthPage.AstralPasswordPasses | src/pages/AuthPage/AuthPage.tsx:48 | three characters outside the Basic Multilingual Plane pass the six-unit rule |
| AuthPage.ErrorMessage | src/pages/AuthPage/AuthPage.tsx:72-82 | an Error shows its message, a string itself, an object with a `message` that message converted with `String`, anything else the generic text |
| AuthPage.StringMessageShownAsIs | src/pages/AuthPage/AuthPage.tsx:72-82 | an object whose `message` is a string shows that string, as a thrown string or Error with it would |
| AuthPage.NumericMessageReadsBack | src/pages/AuthPage/AuthPage.tsx:79-80 | a numeric message is shown as text that reads back as the same number |
| AuthPage.AuthForm.constructor | src/pages/AuthPage/AuthPage.tsx:16-17 | no error, not loading |
| AuthPage.AuthForm.HandleSubmit | src/pages/AuthPage/AuthPage.tsx:40-86 | an invalid form shows the validation message and sends nothing; a valid one sends login or register by mode, ends not loading, stores the user on success or shows the thrown value's text on failure |
| AuthPage.RestoreSession | src/pages/AuthPage/AuthPage.tsx:25-31 | a saved user is put into the store; without one the store is untouched |
| AuthPage.RegisterThenReload | src/pages/AuthPage/AuthPage.tsx:25-69 | after a registration the next visit restores the new user, signed in |
| JsText.TrimEmptyIff | src/components/ChallengeModal/ChallengeModal.tsx:72-75 | `trim()` gives "" iff the string is all white space |
| JsText.Utf16Length | src/pages/AuthPage/AuthPage.tsx:48 | a string has between one and two UTF-16 units per character |
| JsText.NatToStringValue | src/pages/StatisticPage/StatisticPage.tsx:11-13 | the decimal form of a number reads back as that number |
| JsText.ParseInt | src/components/ChallengeModal/ChallengeModal.tsx:68 | `parseInt` gives NaN iff no digit follows the leading white space and sign (its value is stated by JsText.IntToStringParses) |
| JsText.IntToStringParses | src/components/ChallengeModal/ChallengeModal.tsx:55-68 | `parseInt` of a number's decimal form is that number |
| JsText.ToNumber | src/components/ChallengeModal/ChallengeModal.tsx:70 | `Number` of a blank string is 0 (its value elsewhere is tied to `parseInt` by JsText.NumberAgreesWithParseInt) |
| JsText.IntToStringNumber | src/components/ChallengeModal/ChallengeModal.tsx:55-70 | `Number` of a number's decimal form is that number |
| JsText.NumberAgreesWithParseInt | src/components/ChallengeModal/ChallengeModal.tsx:68-70 | where `Number` reads a non-blank target as a number, the `parseInt` the add path uses reads the same number, so add and edit agree on such a target |
| JsText.PadTwo | src/pages/StatisticPage/StatisticPage.tsx:11-12 | a number below 100 becomes exactly two digits denoting it |
| JsArray.FirstOccurrences | src/components/ChallengeModal/ChallengeModal.tsx:97-105 | no duplicates, and the same members as the input |
| JsArray.SortBy | src/features/statsSlice/statesSlice.ts:81-83 | the sorted array is a permutation of the input |
| JsArray.SortBySorted | src/pages/StatisticPage/StatisticPage.tsx:59-63 | the result is in ascending key order |
| JsArray.SortByStable | src/features/statsSlice/statesSlice.ts:81-83 | elements with equal keys keep their relative order |

## Left out

- Firebase I/O is not modelled as I/O. Reads, `set`, `update`, `push` and
  `remove` act directly on the `Database` maps. `onValue` listeners are
  registry entries, and a read followed by its writes runs as one step with
  no interleaving.
- The `Promise.all` in the fan-out and in the rankings thunk is sequential
  here. Concurrent writers and the order in which writes land are not
  modelled.
- `setupMidnightReset` and its timers are not modelled. The clock is a
  parameter: `today` for `toDateString()` and `now` for `Date.now()`.
- Time zones and the calendar are a parameter: a `calendar` function from
  timestamp to local date. The `new Date(...)` decomposition is not modelled.
- `getRandomColor`, the Chart.js rendering and all antd/React rendering are
  left out. So is the increment button's disabled state, which is UI only.
- The auth thunks' calls to the identity provider and to the database are
  left out. What they resolve or reject with is a parameter.
- `updateUserEmail`, `updateUserProfile`, `updateUserPassword`,
  `deleteAccount` and `checkAuthState` are outside the modelled core.
- `localStorage` and navigation are reported as outputs
  (`HandleSubmit`'s `stored`), not performed.
- Streak tracking, `editDailyChallenge`, appending to `isCompletedData`,
  deleting single-use challenges, and the weekly challenges' `users` list
  are outside the modelled core.
- JavaScript objects' key order is taken as given: store entries arrive as a
  sequence. `Object.keys` ordering of integer-like keys is not modelled.
- StatisticPage.DataByTitle: `order` is first-assignment order; JavaScript's
  `Object.entries` lists integer-like titles ("1", "42") first, ascending,
  and that reordering of the datasets is not modelled.
- Inherited `Object.prototype` names are modelled where they change the
  outcome: a group named after one makes MainPage.GroupDailyChallenges
  throw, and a `"__proto__"` title is dropped from the chart. Elsewhere
  (the day keys "DD/MM/YYYY" and the database update paths) such keys do
  not arise.
- ChallengesSlice.Database.IncrementChallengeProgress visits the weekly keys
  in an arbitrary order; only the final map is stated.
- JsText.ToNumber: does not model fractional, hexadecimal, exponent or
  `Infinity` forms of `Number`, because targets and messages are integers
  here; a string outside the modelled forms gives `None` (NaN).
- JsText.ParseInt: integers are unbounded, so the 53-bit precision of a
  JavaScript number is not modelled.
- StatsSlice.UserName: `slice(0, 6)` counts UTF-16 code units in
  JavaScript but characters here; the two differ only for ids with
  characters outside the Basic Multilingual Plane.
- StatisticPage.SetToSeq: the insertion order of `Set` is not modelled.
  Only membership without duplicates is stated, which is all the date sort
  that follows depends on.
- StatisticPage.DateOrdinal reads a key that is not "DD/MM/YYYY" as 0, where
  JavaScript gives NaN. Every key the page builds has that shape.
- StatsSlice.StatsState.RankingsRejected and
  StatsSlice.StatsState.ActiveUsersRejected take `action.error.message` as an
  optional string. Redux Toolkit's serialisation of a thrown value into that
  message is not modelled; the one case the page reaches, a rejection through
  `rejectWithValue`, is StatsSlice.FailedRankings with the constant
  "Rejected", so the "Failed to fetch user rankings" fallback is never shown.
- MainPage.HandleAddChallenge takes no single-use flag, matching the page
  handler, which ignores the editor's fourth argument.
- AuthPage.ErrorMessage: for a thrown object with a `message`, only the
  listed value kinds (string, number, boolean, null, undefined) are
  converted with `String`. Nested objects are not modelled.
