/** Challenge bookkeeping of src/features/challengesSlice/challengesSlice.ts:
    turning store snapshots into lists, the progress step with its fan-out to
    the weekly challenges, adding and deleting daily challenges, the registry
    of unsubscribe callbacks and the slice's reducers.

    The store is a `Database` object holding the two trees the thunks touch:
    `weeklyChallenges/{id}` and `dailyChallenges/{userId}/{id}`. */
module ChallengesSlice {
  import opened Wrappers
  import opened Types
  import JsArray

  /** The entries of a store object in the order `Object.keys` lists them. */
  type Entries = seq<(string, Challenge)>

  // ---------------------------------------------------------------------
  // Snapshot to list

  /** One listed record: `{...data[key], id: key}`, plus `userId` for a
      daily list (`owner` is `Some(userId)` there, `None` for the weekly
      list, which keeps whatever `userId` the record holds). */
  function Stamp(key: string, c: Challenge, owner: Option<string>): (r: Challenge)
    ensures r.id == Some(key)
    ensures r.userId == if owner.Some? then owner else c.userId
    ensures r.(id := c.id, userId := c.userId) == c
  {
    c.(id := Some(key), userId := if owner.Some? then owner else c.userId)
  }

  function Listed(es: Entries, owner: Option<string>): (r: seq<Challenge>)
    ensures |r| == |es|
    ensures forall i :: 0 <= i < |es| ==> r[i] == Stamp(es[i].0, es[i].1, owner)
  {
    if es == [] then [] else [Stamp(es[0].0, es[0].1, owner)] + Listed(es[1..], owner)
  }

  /** The weekly list a snapshot gives (`None`: the node is null). */
  function WeeklyList(data: Option<Entries>): (r: seq<Challenge>)
    ensures data.None? ==> r == []
    ensures data.Some? ==> |r| == |data.value|
    ensures data.Some? ==> forall i :: 0 <= i < |r| ==>
      r[i].id == Some(data.value[i].0) && r[i].(id := data.value[i].1.id) == data.value[i].1
  {
    match data
    case None => []
    case Some(es) => Listed(es, None)
  }

  /** The daily list a snapshot of `dailyChallenges/{userId}` gives. */
  function DailyList(userId: string, data: Option<Entries>): (r: seq<Challenge>)
    ensures data.None? ==> r == []
    ensures data.Some? ==> |r| == |data.value|
    ensures data.Some? ==> forall i :: 0 <= i < |r| ==>
      && r[i].id == Some(data.value[i].0)
      && r[i].userId == Some(userId)
      && r[i].(id := data.value[i].1.id, userId := data.value[i].1.userId) == data.value[i].1
  {
    match data
    case None => []
    case Some(es) => Listed(es, Some(userId))
  }

  /** `fetchDailyChallenges`: nothing is read without a user id. */
  function FetchDailyChallenges(userId: string, data: Option<Entries>): (r: seq<Challenge>)
    ensures userId == "" ==> r == []
    ensures userId != "" ==> r == DailyList(userId, data)
  {
    if userId == "" then [] else DailyList(userId, data)
  }

  /** The entries of a store object after `remove` of the child `key`. */
  function WithoutKey(es: Entries, key: string): (r: Entries)
    ensures |r| <= |es|
  {
    if es == [] then []
    else (if es[0].0 == key then [] else [es[0]]) + WithoutKey(es[1..], key)
  }

  // ---------------------------------------------------------------------
  // Deleting from the list held by the slice

  /** `list.filter(ch => ch.id !== id)` */
  function RemoveById(list: seq<Challenge>, id: string): (r: seq<Challenge>)
    ensures |r| <= |list|
    ensures forall i :: 0 <= i < |r| ==> r[i] in list && r[i].id != Some(id)
    ensures forall i :: 0 <= i < |list| && list[i].id != Some(id) ==> list[i] in r
  {
    if list == [] then []
    else (if list[0].id == Some(id) then [] else [list[0]]) + RemoveById(list[1..], id)
  }

  /** Removing keeps the survivors in their order: it distributes over
      concatenation. */
  lemma {:induction false} RemoveByIdAppend(a: seq<Challenge>, b: seq<Challenge>, id: string)
    ensures RemoveById(a + b, id) == RemoveById(a, id) + RemoveById(b, id)
  {
    if a == [] {
      assert a + b == b;
    } else {
      var head := if a[0].id == Some(id) then [] else [a[0]];
      calc {
        RemoveById(a + b, id);
        { JsArray.ConsAppend(a, b); }
        head + RemoveById(a[1..] + b, id);
        { RemoveByIdAppend(a[1..], b, id); }
        head + (RemoveById(a[1..], id) + RemoveById(b, id));
        { JsArray.Associative(head, RemoveById(a[1..], id), RemoveById(b, id)); }
        RemoveById(a, id) + RemoveById(b, id);
      }
    }
  }

  /** Deleting an id no entry carries leaves the list as it was. */
  lemma {:induction false} RemoveByIdAbsent(list: seq<Challenge>, id: string)
    requires forall i :: 0 <= i < |list| ==> list[i].id != Some(id)
    ensures RemoveById(list, id) == list
  {
    if list != [] {
      RemoveByIdAbsent(list[1..], id);
    }
  }

  /** Deleting twice is deleting once. */
  lemma RemoveByIdIdempotent(list: seq<Challenge>, id: string)
    ensures RemoveById(RemoveById(list, id), id) == RemoveById(list, id)
  {
    RemoveByIdAbsent(RemoveById(list, id), id);
  }

  /** The delete reducer agrees with the store: removing the id from the
      listed snapshot gives the list of the snapshot without that child. */
  lemma {:induction false} RemoveAgreesWithStore(es: Entries, owner: Option<string>, key: string)
    ensures RemoveById(Listed(es, owner), key) == Listed(WithoutKey(es, key), owner)
  {
    if es != [] {
      RemoveAgreesWithStore(es[1..], owner, key);
      var l := Listed(es, owner);
      assert l == [l[0]] + Listed(es[1..], owner);
      RemoveByIdAppend([l[0]], Listed(es[1..], owner), key);
      var w := if es[0].0 == key then [] else [es[0]];
      assert WithoutKey(es, key) == w + WithoutKey(es[1..], key);
      ListedAppend(w, WithoutKey(es[1..], key), owner);
    }
  }

  lemma {:induction false} ListedAppend(a: Entries, b: Entries, owner: Option<string>)
    ensures Listed(a + b, owner) == Listed(a, owner) + Listed(b, owner)
  {
    if a == [] {
      assert a + b == b;
    } else {
      var head := [Stamp(a[0].0, a[0].1, owner)];
      calc {
        Listed(a + b, owner);
        { JsArray.ConsAppend(a, b); }
        head + Listed(a[1..] + b, owner);
        { ListedAppend(a[1..], b, owner); }
        head + (Listed(a[1..], owner) + Listed(b, owner));
        { JsArray.Associative(head, Listed(a[1..], owner), Listed(b, owner)); }
        Listed(a, owner) + Listed(b, owner);
      }
    }
  }

  // ---------------------------------------------------------------------
  // The progress step

  /** `after` agrees with `before` on every field except `current`,
      `isCompleted` and `countCompleted`. */
  predicate OnlyProgressDiffers(before: Challenge, after: Challenge) {
    before.(current := after.current, isCompleted := after.isCompleted,
            countCompleted := after.countCompleted) == after
  }

  /** One "mark complete" on a stored challenge: `current` goes up by one,
      `isCompleted` is recomputed against `target`, and `countCompleted` goes
      up whenever the new value is at or above `target` -- on every such
      increment, not only on the first. Every other field is copied. */
  function Increment(c: Challenge): (r: Challenge)
    ensures r.current == c.current + 1
    ensures r.isCompleted <==> r.current >= c.target
    ensures r.countCompleted == if r.isCompleted then c.countCompleted + 1 else c.countCompleted
    ensures OnlyProgressDiffers(c, r)
  {
    var updated := c.current + 1;
    var done := updated >= c.target;
    c.(current := updated, isCompleted := done,
       countCompleted := if done then c.countCompleted + 1 else c.countCompleted)
  }

  /** `n` increments in a row. */
  function Increments(c: Challenge, n: nat): Challenge {
    if n == 0 then c else Increment(Increments(c, n - 1))
  }

  /** How many of the values `current + 1`, ..., `current + n` reach
      `target`. */
  function Landed(current: int, target: int, n: nat): nat {
    if current + n < target then 0
    else if current + 1 >= target then n
    else current + n - target + 1
  }

  /** After `n` increments, `current` has grown by `n`, the record is
      completed iff `current + n >= target`, and `countCompleted` has grown by
      the number of increments that landed at or above `target`. */
  lemma {:induction false} IncrementsEffect(c: Challenge, n: nat)
    ensures Increments(c, n).current == c.current + n
    ensures n > 0 ==> (Increments(c, n).isCompleted <==> c.current + n >= c.target)
    ensures Increments(c, n).countCompleted == c.countCompleted + Landed(c.current, c.target, n)
    ensures Increments(c, n).target == c.target
  {
    if n > 0 {
      IncrementsEffect(c, n - 1);
    }
  }

  /** A fresh daily challenge with target 3: the first two marks leave it
      open, the third completes it with `countCompleted` 1, and a fourth
      mark (the source does not block it) counts it a second time. */
  lemma TargetThreeScenario(c: Challenge)
    requires c.current == 0 && c.target == 3 && c.countCompleted == 0
    ensures !Increments(c, 1).isCompleted && !Increments(c, 2).isCompleted
    ensures Increments(c, 3).isCompleted && Increments(c, 3).countCompleted == 1
    ensures Increments(c, 4).countCompleted == 2
  {
    IncrementsEffect(c, 1);
    IncrementsEffect(c, 2);
    IncrementsEffect(c, 3);
    IncrementsEffect(c, 4);
  }

  /** The fan-out write to one weekly challenge: `current + 1` and
      `isCompleted` recomputed, whether or not it was already completed;
      `countCompleted` and every other field are copied. */
  function BumpWeekly(w: Challenge): (r: Challenge)
    ensures r.current == w.current + 1
    ensures r.isCompleted <==> r.current >= w.target
    ensures r.countCompleted == w.countCompleted && r.target == w.target
    ensures OnlyProgressDiffers(w, r)
  {
    w.(current := w.current + 1, isCompleted := w.current + 1 >= w.target)
  }

  /** The weekly tree after the fan-out: every weekly challenge bumped. */
  function FanOut(weekly: map<string, Challenge>): (r: map<string, Challenge>)
    ensures r.Keys == weekly.Keys
    ensures forall k :: k in weekly ==> r[k] == BumpWeekly(weekly[k])
  {
    map k | k in weekly :: BumpWeekly(weekly[k])
  }

  /** Completed weekly challenges are not skipped: each fan-out raises every
      weekly `current` by one, so `n` completions raise it by `n`. */
  lemma {:induction false} FanOutRepeated(weekly: map<string, Challenge>, n: nat, k: string)
    requires k in weekly
    ensures k in FanOuts(weekly, n) && FanOuts(weekly, n)[k].current == weekly[k].current + n
    ensures FanOuts(weekly, n)[k].target == weekly[k].target
  {
    if n > 0 {
      FanOutRepeated(weekly, n - 1, k);
    }
  }

  /** `n` fan-outs in a row. */
  function FanOuts(weekly: map<string, Challenge>, n: nat): map<string, Challenge> {
    if n == 0 then weekly else FanOut(FanOuts(weekly, n - 1))
  }

  // ---------------------------------------------------------------------
  // Adding a daily challenge

  /** The record `addDailyChallenge` stores: the draft with `createdAt`
      overwritten by the clock, `current` 0, `isCompleted` false and the
      owner's id; it fails without a user id. */
  function FinalizeDraft(draft: Challenge, userId: string, now: int): (r: Result<Challenge, string>)
    ensures r.Failure? <==> userId == ""
    ensures r.Failure? ==> r.error == "User ID is required"
    ensures r.Success? ==>
      && r.value.current == 0 && !r.value.isCompleted
      && r.value.userId == Some(userId) && r.value.createdAt == now
      && r.value.(current := draft.current, isCompleted := draft.isCompleted,
                  userId := draft.userId, createdAt := draft.createdAt) == draft
  {
    if userId == "" then Failure("User ID is required")
    else Success(draft.(createdAt := now, current := 0, isCompleted := false, userId := Some(userId)))
  }

  // ---------------------------------------------------------------------
  // The store

  class Database {
    var weekly: map<string, Challenge>
    var daily: map<string, map<string, Challenge>>

    constructor (weekly: map<string, Challenge>, daily: map<string, map<string, Challenge>>)
      ensures this.weekly == weekly && this.daily == daily
    {
      this.weekly := weekly;
      this.daily := daily;
    }

    /** `snapshot.val()` at `dailyChallenges/{userId}/{id}` or
        `weeklyChallenges/{id}`. */
    function Read(id: string, userId: string, isDaily: bool): Option<Challenge>
      reads this
    {
      if isDaily then
        if userId in daily && id in daily[userId] then Some(daily[userId][id]) else None
      else
        if id in weekly then Some(weekly[id]) else None
    }

    /** `incrementChallengeProgress`, with the one-shot read and the writes
        it schedules run as one sequential step. A missing challenge writes
        nothing. A daily challenge that the step completes then bumps every
        weekly challenge; a weekly increment never fans out. */
    method IncrementChallengeProgress(id: string, userId: string, isDaily: bool)
      modifies this
      ensures old(Read(id, userId, isDaily)).None? ==> weekly == old(weekly) && daily == old(daily)
      ensures old(Read(id, userId, isDaily)).Some? && isDaily ==>
        var c := Increment(old(Read(id, userId, isDaily)).value);
        && daily == old(daily)[userId := old(daily)[userId][id := c]]
        && weekly == if c.isCompleted then FanOut(old(weekly)) else old(weekly)
      ensures old(Read(id, userId, isDaily)).Some? && !isDaily ==>
        var c := Increment(old(Read(id, userId, isDaily)).value);
        weekly == old(weekly)[id := c] && daily == old(daily)
    {
      var found := Read(id, userId, isDaily);
      if found.Some? {
        var updated := Increment(found.value);
        if isDaily {
          daily := daily[userId := daily[userId][id := updated]];
        } else {
          weekly := weekly[id := updated];
        }
        if isDaily && updated.isCompleted {
          var snapshot := weekly;
          var pending := snapshot.Keys;
          ghost var dailyAfter := daily;
          while pending != {}
            invariant pending <= snapshot.Keys
            invariant weekly.Keys == snapshot.Keys
            invariant daily == dailyAfter
            invariant forall k :: k in snapshot && k !in pending ==> weekly[k] == BumpWeekly(snapshot[k])
            invariant forall k :: k in pending ==> weekly[k] == snapshot[k]
            decreases pending
          {
            var k :| k in pending;
            weekly := weekly[k := BumpWeekly(snapshot[k])];
            pending := pending - {k};
          }
          assert weekly == FanOut(snapshot);
        }
      }
    }

    /** `addDailyChallenge`: `key` is the child name `push` allocates. On
        success the finalised draft is stored under
        `dailyChallenges/{userId}/{key}` and returned with `id` = `key`. */
    method AddDailyChallenge(draft: Challenge, userId: string, now: int, key: string)
      returns (r: Result<Challenge, string>)
      requires draft.id.None?
      modifies this
      ensures r.Failure? <==> userId == ""
      ensures r.Failure? ==> r.error == "User ID is required" && daily == old(daily)
      ensures r.Success? ==>
        var stored := FinalizeDraft(draft, userId, now).value;
        var mine := if userId in old(daily) then old(daily)[userId] else map[];
        && daily == old(daily)[userId := mine[key := stored]]
        && r.value == stored.(id := Some(key))
      ensures weekly == old(weekly)
    {
      var finalised := FinalizeDraft(draft, userId, now);
      if finalised.Failure? {
        return Failure(finalised.error);
      }
      var mine := if userId in daily then daily[userId] else map[];
      daily := daily[userId := mine[key := finalised.value]];
      r := Success(finalised.value.(id := Some(key)));
    }

    /** `deleteDailyChallenge`: removes `dailyChallenges/{userId}/{id}`
        (nothing happens when it is absent) and yields the id. */
    method DeleteDailyChallenge(id: string, userId: string) returns (r: string)
      modifies this
      ensures r == id
      ensures userId in old(daily) ==> daily == old(daily)[userId := old(daily)[userId] - {id}]
      ensures userId !in old(daily) ==> daily == old(daily)
      ensures weekly == old(weekly)
    {
      if userId in daily {
        daily := daily[userId := daily[userId] - {id}];
      }
      r := id;
    }
  }

  // ---------------------------------------------------------------------
  // Subscriptions

  /** The listener an unsubscribe callback detaches. */
  datatype Listener = WeeklyListener | DailyListener(userId: string)

  /** The module-level `unsubscribeCallbacks` array. Calling a callback is
      recorded by appending its listener to `detached`. */
  class SubscriptionRegistry {
    var callbacks: seq<Listener>
    var detached: seq<Listener>

    constructor ()
      ensures callbacks == [] && detached == []
    {
      callbacks := [];
      detached := [];
    }

    /** `unsubscribeAll`: every registered callback is called once, in
        registration order, and the registry is emptied. */
    method UnsubscribeAll()
      modifies this
      ensures detached == old(detached) + old(callbacks)
      ensures callbacks == []
    {
      for i := 0 to |callbacks|
        invariant callbacks == old(callbacks)
        invariant detached == old(detached) + callbacks[..i]
      {
        detached := detached + [callbacks[i]];
      }
      callbacks := [];
    }

    /** `subscribeToChallenges`: clears the registry first, then registers
        the weekly listener and, when a user id is given, the daily one. */
    method SubscribeToChallenges(userId: string)
      modifies this
      ensures detached == old(detached) + old(callbacks)
      ensures callbacks == [WeeklyListener] + (if userId != "" then [DailyListener(userId)] else [])
    {
      UnsubscribeAll();
      callbacks := callbacks + [WeeklyListener];
      if userId != "" {
        callbacks := callbacks + [DailyListener(userId)];
      }
    }
  }

  // ---------------------------------------------------------------------
  // The slice

  /** The `ChallengesState` the reducers update in place. */
  class ChallengesState {
    var weeklyChallenges: seq<Challenge>
    var dailyChallenges: seq<Challenge>
    var loading: bool
    var error: Option<string>

    predicate IsInitial()
      reads this
    {
      weeklyChallenges == [] && dailyChallenges == [] && !loading && error.None?
    }

    constructor ()
      ensures IsInitial()
    {
      weeklyChallenges := [];
      dailyChallenges := [];
      loading := false;
      error := None;
    }

    method SetWeeklyChallenges(payload: seq<Challenge>)
      modifies this
      ensures weeklyChallenges == payload
      ensures dailyChallenges == old(dailyChallenges) && loading == old(loading) && error == old(error)
    {
      weeklyChallenges := payload;
    }

    method SetDailyChallenges(payload: seq<Challenge>)
      modifies this
      ensures dailyChallenges == payload
      ensures weeklyChallenges == old(weeklyChallenges) && loading == old(loading) && error == old(error)
    {
      dailyChallenges := payload;
    }

    method ResetChallenges()
      modifies this
      ensures IsInitial()
    {
      weeklyChallenges := [];
      dailyChallenges := [];
      loading := false;
      error := None;
    }

    /** `fetchWeeklyChallenges.pending` and `fetchDailyChallenges.pending`. */
    method FetchPending()
      modifies this
      ensures loading && error.None?
      ensures weeklyChallenges == old(weeklyChallenges) && dailyChallenges == old(dailyChallenges)
    {
      loading := true;
      error := None;
    }

    method FetchWeeklyFulfilled(payload: seq<Challenge>)
      modifies this
      ensures weeklyChallenges == payload && !loading
      ensures dailyChallenges == old(dailyChallenges) && error == old(error)
    {
      weeklyChallenges := payload;
      loading := false;
    }

    method FetchDailyFulfilled(payload: seq<Challenge>)
      modifies this
      ensures dailyChallenges == payload && !loading
      ensures weeklyChallenges == old(weeklyChallenges) && error == old(error)
    {
      dailyChallenges := payload;
      loading := false;
    }

    /** `fetchWeeklyChallenges.rejected` and `fetchDailyChallenges.rejected`. */
    method FetchRejected(payload: Option<string>)
      modifies this
      ensures !loading && error == payload
      ensures weeklyChallenges == old(weeklyChallenges) && dailyChallenges == old(dailyChallenges)
    {
      loading := false;
      error := payload;
    }

    /** `deleteDailyChallenge.fulfilled`: the entries with that id leave the
        daily list; the others stay, in order. */
    method DeleteDailyFulfilled(id: string)
      modifies this
      ensures dailyChallenges == RemoveById(old(dailyChallenges), id)
      ensures weeklyChallenges == old(weeklyChallenges) && loading == old(loading) && error == old(error)
    {
      dailyChallenges := RemoveById(dailyChallenges, id);
    }
  }
}
