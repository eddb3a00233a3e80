/** The bookkeeping in src/pages/Main/Main.tsx: the daily re-arm
    (`checkAndResetDailyChallenges`), the partition of the daily list by
    group (`groupDailyChallenges`) and the draft `handleAddChallenge`
    dispatches. `today` is the `toDateString()` of the clock, passed in. */
module MainPage {
  import opened Wrappers
  import opened Types
  import ChallengesSlice
  import JsArray
  import JsText

  // ---------------------------------------------------------------------
  // Daily reset

  /** The three fields a reset writes; a patch path `Path(key, f)` stands
      for the relative path "`key`/`f`". */
  datatype ResetField = CurrentField | IsCompletedField | LastResetDateField
  datatype Path = Path(key: string, field: ResetField)
  datatype PatchValue = IntValue(n: int) | BoolValue(b: bool) | StringValue(s: string)

  /** `challenge.lastResetDate !== today` (an absent date always differs). */
  predicate NeedsReset(c: Challenge, today: string) {
    c.lastResetDate != Some(today)
  }

  function ResetValue(f: ResetField, today: string): PatchValue {
    match f
    case CurrentField => IntValue(0)
    case IsCompletedField => BoolValue(false)
    case LastResetDateField => StringValue(today)
  }

  /** `updates` holds exactly the three reset entries of every challenge in
      `data` whose `lastResetDate` is not `today`, and nothing else. */
  ghost predicate IsResetPatch(updates: map<Path, PatchValue>, data: map<string, Challenge>, today: string) {
    && (forall p :: p in updates <==> p.key in data && NeedsReset(data[p.key], today))
    && (forall p :: p in updates ==> updates[p] == ResetValue(p.field, today))
  }

  /** The `forEach` that fills `updates` and `needsUpdate`. */
  method BuildResetPatch(data: map<string, Challenge>, today: string)
    returns (updates: map<Path, PatchValue>, needsUpdate: bool)
    ensures IsResetPatch(updates, data, today)
    ensures needsUpdate <==> exists k :: k in data && NeedsReset(data[k], today)
    ensures needsUpdate <==> updates != map[]
  {
    updates := map[];
    needsUpdate := false;
    var pending := data.Keys;
    while pending != {}
      invariant pending <= data.Keys
      invariant forall p :: p in updates <==> p.key in data && p.key !in pending && NeedsReset(data[p.key], today)
      invariant forall p :: p in updates ==> updates[p] == ResetValue(p.field, today)
      invariant needsUpdate <==> exists k :: k in data && k !in pending && NeedsReset(data[k], today)
      decreases pending
    {
      var key :| key in pending;
      if NeedsReset(data[key], today) {
        var before := updates;
        updates := updates[Path(key, CurrentField) := IntValue(0)];
        updates := updates[Path(key, IsCompletedField) := BoolValue(false)];
        updates := updates[Path(key, LastResetDateField) := StringValue(today)];
        forall p ensures p in updates <==> p in before || p.key == key {
          if p.key == key {
            match p.field
            case CurrentField =>
            case IsCompletedField =>
            case LastResetDateField =>
          }
        }
        needsUpdate := true;
      }
      pending := pending - {key};
    }
    if needsUpdate {
      var key :| key in data && NeedsReset(data[key], today);
      assert Path(key, CurrentField) in updates;
    }
  }

  /** A challenge that qualifies gets exactly three entries in the patch. */
  lemma ThreeEntriesPerChallenge(updates: map<Path, PatchValue>, data: map<string, Challenge>, today: string, key: string)
    requires IsResetPatch(updates, data, today)
    requires key in data && NeedsReset(data[key], today)
    ensures |set p | p in updates && p.key == key| == 3
  {
    var mine := set p | p in updates && p.key == key;
    assert mine == {Path(key, CurrentField), Path(key, IsCompletedField), Path(key, LastResetDateField)} by {
      forall p | p in mine
        ensures p == Path(key, CurrentField) || p == Path(key, IsCompletedField) || p == Path(key, LastResetDateField)
      {
        match p.field
        case CurrentField =>
        case IsCompletedField =>
        case LastResetDateField =>
      }
    }
  }

  /** Writing one patch value into its field (values of the wrong kind for a
      field are never built by the reset and leave the record as it was). */
  function SetField(c: Challenge, f: ResetField, v: PatchValue): Challenge {
    match (f, v)
    case (CurrentField, IntValue(n)) => c.(current := n)
    case (IsCompletedField, BoolValue(b)) => c.(isCompleted := b)
    case (LastResetDateField, StringValue(s)) => c.(lastResetDate := Some(s))
    case _ => c
  }

  function SetIfListed(c: Challenge, key: string, f: ResetField, updates: map<Path, PatchValue>): Challenge {
    if Path(key, f) in updates then SetField(c, f, updates[Path(key, f)]) else c
  }

  /** `update(dailyRef, updates)` on the user's daily challenges: each listed
      path overwrites its field, every field not listed is untouched. */
  function ApplyPatch(data: map<string, Challenge>, updates: map<Path, PatchValue>): (r: map<string, Challenge>)
    ensures r.Keys == data.Keys
  {
    map key | key in data ::
      SetIfListed(SetIfListed(SetIfListed(data[key], key, CurrentField, updates),
                              key, IsCompletedField, updates),
                  key, LastResetDateField, updates)
  }

  /** A re-armed challenge: progress cleared and dated today. */
  function Rearm(c: Challenge, today: string): Challenge {
    c.(current := 0, isCompleted := false, lastResetDate := Some(today))
  }

  /** The intended effect of a reset: every challenge not yet reset today is
      re-armed, the others are left as they are. */
  function ResetAll(data: map<string, Challenge>, today: string): (r: map<string, Challenge>)
    ensures r.Keys == data.Keys
    ensures forall k :: k in r ==> r[k].lastResetDate == Some(today)
    ensures forall k :: k in data && !NeedsReset(data[k], today) ==> r[k] == data[k]
    ensures forall k :: k in data && NeedsReset(data[k], today) ==>
      && r[k].current == 0 && !r[k].isCompleted
      && r[k].(current := data[k].current, isCompleted := data[k].isCompleted,
               lastResetDate := data[k].lastResetDate) == data[k]
  {
    map k | k in data :: if NeedsReset(data[k], today) then Rearm(data[k], today) else data[k]
  }

  /** Applying the patch that `BuildResetPatch` builds has exactly the
      effect `ResetAll` describes. */
  lemma ApplyResetPatch(data: map<string, Challenge>, updates: map<Path, PatchValue>, today: string)
    requires IsResetPatch(updates, data, today)
    ensures ApplyPatch(data, updates) == ResetAll(data, today)
  {
    var applied := ApplyPatch(data, updates);
    var expected := ResetAll(data, today);
    forall k | k in data ensures applied[k] == expected[k] {
      ApplyPatchAt(data, updates, today, k);
    }
  }

  lemma ApplyPatchAt(data: map<string, Challenge>, updates: map<Path, PatchValue>, today: string, k: string)
    requires IsResetPatch(updates, data, today)
    requires k in data
    ensures ApplyPatch(data, updates)[k] == ResetAll(data, today)[k]
  {
    if NeedsReset(data[k], today) {
      assert updates[Path(k, CurrentField)] == IntValue(0);
      assert updates[Path(k, IsCompletedField)] == BoolValue(false);
      assert updates[Path(k, LastResetDateField)] == StringValue(today);
    } else {
      assert Path(k, CurrentField) !in updates;
      assert Path(k, IsCompletedField) !in updates;
      assert Path(k, LastResetDateField) !in updates;
    }
  }

  /** `checkAndResetDailyChallenges` for the signed-in user: reads the
      user's daily challenges and writes one multi-path patch when at least
      one of them has a `lastResetDate` other than `today`; with no data or
      no qualifying challenge nothing is written. */
  method CheckAndResetDailyChallenges(db: ChallengesSlice.Database, userId: string, today: string)
    returns (wrote: bool)
    modifies db
    ensures wrote <==> userId in old(db.daily)
                       && exists k :: k in old(db.daily)[userId] && NeedsReset(old(db.daily)[userId][k], today)
    ensures wrote ==> db.daily == old(db.daily)[userId := ResetAll(old(db.daily)[userId], today)]
    ensures !wrote ==> db.daily == old(db.daily)
    ensures db.weekly == old(db.weekly)
  {
    if userId !in db.daily {
      return false;
    }
    var data := db.daily[userId];
    var updates, needsUpdate := BuildResetPatch(data, today);
    if needsUpdate {
      ApplyResetPatch(data, updates, today);
      db.daily := db.daily[userId := ApplyPatch(data, updates)];
    }
    wrote := needsUpdate;
  }

  /** The reset is idempotent within a day: run twice, the second run does
      not write. */
  method ResetTwiceSameDay(db: ChallengesSlice.Database, userId: string, today: string)
    returns (first: bool, second: bool)
    modifies db
    ensures !second
    ensures userId in db.daily ==> forall k :: k in db.daily[userId] ==> !NeedsReset(db.daily[userId][k], today)
  {
    first := CheckAndResetDailyChallenges(db, userId, today);
    second := CheckAndResetDailyChallenges(db, userId, today);
  }

  // ---------------------------------------------------------------------
  // Grouping

  /** The challenges of group `g`, in list order. */
  function InGroup(cs: seq<Challenge>, g: string): (r: seq<Challenge>)
    ensures |r| <= |cs|
  {
    if cs == [] then []
    else
      var last := cs[|cs| - 1];
      InGroup(cs[..|cs| - 1], g) + (if HasGroup(last) && last.group.value == g then [last] else [])
  }

  /** The challenges without a group, in list order. */
  function Ungrouped(cs: seq<Challenge>): (r: seq<Challenge>)
    ensures |r| <= |cs|
  {
    if cs == [] then []
    else
      var last := cs[|cs| - 1];
      Ungrouped(cs[..|cs| - 1]) + (if HasGroup(last) then [] else [last])
  }

  /** A bucket holds only challenges of the list that carry its group, and
      the ungrouped list only challenges of the list without one. */
  lemma {:induction false} BucketMembers(cs: seq<Challenge>, g: string)
    ensures forall c :: c in InGroup(cs, g) ==> c in cs && HasGroup(c) && c.group.value == g
    ensures forall c :: c in Ungrouped(cs) ==> c in cs && !HasGroup(c)
  {
    if cs != [] {
      var p := cs[..|cs| - 1];
      BucketMembers(p, g);
      JsArray.LastSplit(cs);
    }
  }

  lemma InGroupSnoc(cs: seq<Challenge>, c: Challenge, g: string)
    ensures InGroup(cs + [c], g) == InGroup(cs, g) + (if HasGroup(c) && c.group.value == g then [c] else [])
  {
    JsArray.SnocFront(cs, c);
  }

  lemma UngroupedSnoc(cs: seq<Challenge>, c: Challenge)
    ensures Ungrouped(cs + [c]) == Ungrouped(cs) + (if HasGroup(c) then [] else [c])
  {
    JsArray.SnocFront(cs, c);
  }

  /** The groups in use: the truthy `group` of some challenge. */
  function GroupNames(cs: seq<Challenge>): set<string> {
    if cs == [] then {}
    else
      var last := cs[|cs| - 1];
      GroupNames(cs[..|cs| - 1]) + (if HasGroup(last) then {last.group.value} else {})
  }

  lemma GroupNamesSnoc(cs: seq<Challenge>, c: Challenge)
    ensures GroupNames(cs + [c]) == GroupNames(cs) + (if HasGroup(c) then {c.group.value} else {})
  {
    JsArray.SnocFront(cs, c);
  }

  /** A name is in use iff its bucket is not empty. */
  lemma {:induction false} GroupNamesAreBuckets(cs: seq<Challenge>, g: string)
    ensures g in GroupNames(cs) <==> InGroup(cs, g) != []
  {
    if cs != [] {
      GroupNamesAreBuckets(cs[..|cs| - 1], g);
    }
  }

  /** Some challenge's group is a name `{}` inherits (`"toString"`,
      `"constructor"`, ...): for it `grouped[group]` is already truthy, so no
      list is created and the `push` on the inherited value throws. */
  predicate HasInheritedGroup(cs: seq<Challenge>) {
    exists i :: 0 <= i < |cs| && InheritedGroup(cs[i])
  }

  predicate InheritedGroup(c: Challenge) {
    HasGroup(c) && c.group.value in JsText.InheritedKeys
  }

  lemma InheritedGroupNext(cs: seq<Challenge>, i: nat)
    requires i < |cs|
    ensures HasInheritedGroup(cs[..i + 1]) <==> HasInheritedGroup(cs[..i]) || InheritedGroup(cs[i])
  {
    var p := cs[..i + 1];
    if HasInheritedGroup(p) && !InheritedGroup(cs[i]) {
      var j :| 0 <= j < |p| && InheritedGroup(p[j]);
      assert j < i && cs[..i][j] == p[j];
    }
    if HasInheritedGroup(cs[..i]) {
      var j :| 0 <= j < i && InheritedGroup(cs[..i][j]);
      assert p[j] == cs[..i][j];
    }
    if InheritedGroup(cs[i]) {
      assert p[i] == cs[i];
    }
  }

  /** What `groupDailyChallenges` returns. */
  datatype Grouping = Grouping(grouped: map<string, seq<Challenge>>, ungrouped: seq<Challenge>)

  /** `grouped` and `ungrouped` are what the `forEach` has built from the
      challenges in `done`: a non-empty list for exactly the groups in use,
      each holding its challenges in order, and the rest in order. */
  ghost predicate Bucketed(done: seq<Challenge>, grouped: map<string, seq<Challenge>>, ungrouped: seq<Challenge>) {
    && (forall g :: g in grouped ==> grouped[g] == InGroup(done, g) && grouped[g] != [])
    && (forall g :: g !in grouped ==> InGroup(done, g) == [])
    && ungrouped == Ungrouped(done)
  }

  /** One more challenge: pushed onto its group's list (created when
      missing), or onto `ungrouped`. */
  lemma BucketOne(done: seq<Challenge>, c: Challenge, grouped: map<string, seq<Challenge>>, ungrouped: seq<Challenge>)
    requires Bucketed(done, grouped, ungrouped)
    ensures HasGroup(c) ==>
      var g := c.group.value;
      Bucketed(done + [c], grouped[g := (if g in grouped then grouped[g] else []) + [c]], ungrouped)
    ensures !HasGroup(c) ==> Bucketed(done + [c], grouped, ungrouped + [c])
  {
    UngroupedSnoc(done, c);
    forall h ensures InGroup(done + [c], h) == InGroup(done, h) + (if HasGroup(c) && c.group.value == h then [c] else []) {
      InGroupSnoc(done, c, h);
    }
  }

  /** `groupDailyChallenges`: each challenge with a (non-empty) group is
      pushed onto that group's list, every other one onto `ungrouped`. A
      group named after an inherited property throws a `TypeError`
      (`None`). */
  method GroupDailyChallenges(cs: seq<Challenge>) returns (r: Option<Grouping>)
    ensures r.None? <==> HasInheritedGroup(cs)
    ensures r.Some? ==> forall g :: g in r.value.grouped <==> InGroup(cs, g) != []
    ensures r.Some? ==> forall g :: g in r.value.grouped ==> r.value.grouped[g] == InGroup(cs, g)
    ensures r.Some? ==> r.value.ungrouped == Ungrouped(cs)
  {
    var grouped: map<string, seq<Challenge>> := map[];
    var ungrouped: seq<Challenge> := [];
    for i := 0 to |cs|
      invariant !HasInheritedGroup(cs[..i])
      invariant Bucketed(cs[..i], grouped, ungrouped)
    {
      var c := cs[i];
      InheritedGroupNext(cs, i);
      if InheritedGroup(c) {
        return None;
      }
      BucketOne(cs[..i], c, grouped, ungrouped);
      assert cs[..i + 1] == cs[..i] + [c];
      if HasGroup(c) {
        var g := c.group.value;
        if g !in grouped {
          grouped := grouped[g := []];
        }
        grouped := grouped[g := grouped[g] + [c]];
      } else {
        ungrouped := ungrouped + [c];
      }
    }
    JsArray.TakeAll(cs);
    r := Some(Grouping(grouped, ungrouped));
  }

  /** Grouping keeps list order: the bucket of a concatenation is the
      concatenation of the buckets. */
  lemma {:induction false} InGroupAppend(a: seq<Challenge>, b: seq<Challenge>, g: string)
    ensures InGroup(a + b, g) == InGroup(a, g) + InGroup(b, g)
  {
    if b == [] {
      assert a + b == a;
    } else {
      var p := b[..|b| - 1];
      var c := b[|b| - 1];
      var t := if HasGroup(c) && c.group.value == g then [c] else [];
      JsArray.LastSplit(b);
      calc {
        InGroup(a + b, g);
        { JsArray.AppendSnoc(a, p, c); }
        InGroup((a + p) + [c], g);
        { InGroupSnoc(a + p, c, g); }
        InGroup(a + p, g) + t;
        { InGroupAppend(a, p, g); }
        (InGroup(a, g) + InGroup(p, g)) + t;
        { JsArray.Associative(InGroup(a, g), InGroup(p, g), t); }
        InGroup(a, g) + (InGroup(p, g) + t);
        { InGroupSnoc(p, c, g); }
        InGroup(a, g) + InGroup(b, g);
      }
    }
  }

  lemma {:induction false} UngroupedAppend(a: seq<Challenge>, b: seq<Challenge>)
    ensures Ungrouped(a + b) == Ungrouped(a) + Ungrouped(b)
  {
    if b == [] {
      assert a + b == a;
    } else {
      var p := b[..|b| - 1];
      var c := b[|b| - 1];
      var t := if HasGroup(c) then [] else [c];
      JsArray.LastSplit(b);
      calc {
        Ungrouped(a + b);
        { JsArray.AppendSnoc(a, p, c); }
        Ungrouped((a + p) + [c]);
        { UngroupedSnoc(a + p, c); }
        Ungrouped(a + p) + t;
        { UngroupedAppend(a, p); }
        (Ungrouped(a) + Ungrouped(p)) + t;
        { JsArray.Associative(Ungrouped(a), Ungrouped(p), t); }
        Ungrouped(a) + (Ungrouped(p) + t);
        { UngroupedSnoc(p, c); }
        Ungrouped(a) + Ungrouped(b);
      }
    }
  }

  /** The copies of `x` in a bucket: all of them in its own group's
      bucket, none in any other. */
  lemma {:induction false} InGroupCount(cs: seq<Challenge>, x: Challenge, g: string)
    ensures multiset(InGroup(cs, g))[x] == if HasGroup(x) && x.group.value == g then multiset(cs)[x] else 0
  {
    if cs != [] {
      var p := cs[..|cs| - 1];
      var c := cs[|cs| - 1];
      InGroupCount(p, x, g);
      JsArray.LastSplit(cs);
      var tail := if HasGroup(c) && c.group.value == g then [c] else [];
      assert multiset(InGroup(cs, g)) == multiset(InGroup(p, g)) + multiset(tail);
    }
  }

  /** The copies of `x` among the ungrouped: all of them when it has no
      group, none otherwise. */
  lemma {:induction false} UngroupedCount(cs: seq<Challenge>, x: Challenge)
    ensures multiset(Ungrouped(cs))[x] == if HasGroup(x) then 0 else multiset(cs)[x]
  {
    if cs != [] {
      var p := cs[..|cs| - 1];
      var c := cs[|cs| - 1];
      UngroupedCount(p, x);
      JsArray.LastSplit(cs);
      var tail := if HasGroup(c) then [] else [c];
      assert multiset(Ungrouped(cs)) == multiset(Ungrouped(p)) + multiset(tail);
    }
  }

  /** Every challenge lands in exactly one bucket: all its copies are in the
      bucket of its group (or in `ungrouped`), none anywhere else. */
  lemma GroupingPartition(cs: seq<Challenge>, x: Challenge)
    ensures HasGroup(x) ==> multiset(InGroup(cs, x.group.value))[x] == multiset(cs)[x]
    ensures !HasGroup(x) ==> multiset(Ungrouped(cs))[x] == multiset(cs)[x]
    ensures HasGroup(x) ==> multiset(Ungrouped(cs))[x] == 0
    ensures forall g :: (!HasGroup(x) || g != x.group.value) ==> multiset(InGroup(cs, g))[x] == 0
  {
    UngroupedCount(cs, x);
    forall g {
      InGroupCount(cs, x, g);
    }
  }

  // ---------------------------------------------------------------------
  // The add draft

  /** `handleAddChallenge`: with a signed-in user, the draft handed to
      `addDailyChallenge`; without one, nothing (`None`). The single-use flag
      the editor passes as a fourth argument is not taken. */
  function HandleAddChallenge(uid: Option<string>, title: string, target: int, group: string,
                              today: string, now: int): (r: Option<Challenge>)
    ensures r.Some? <==> uid.Some? && uid.value != ""
    ensures r.Some? ==>
      && r.value.title == title && r.value.target == target && r.value.group == Some(group)
      && r.value.current == 0 && !r.value.isCompleted && r.value.kind == Daily
      && r.value.countCompleted == 0 && r.value.lastResetDate == Some(today)
      && r.value.id.None? && r.value.isSingleUse.None?
  {
    if uid.Some? && uid.value != "" then
      Some(Challenge(None, title, target, 0, false, Daily, None, now, Some(today), 0,
                     Some(group), None, None, None))
    else None
  }

  /** A challenge added today is stored already armed for today: the reset
      later that day leaves it alone. */
  lemma AddedChallengeSkipsTodaysReset(uid: string, title: string, target: int, group: string,
                                       today: string, now: int, storedAt: int)
    requires uid != ""
    ensures var draft := HandleAddChallenge(Some(uid), title, target, group, today, now).value;
            var stored := ChallengesSlice.FinalizeDraft(draft, uid, storedAt);
            && stored.Success?
            && !NeedsReset(stored.value, today)
            && stored.value.current == 0 && stored.value.countCompleted == 0
  {
  }
}
