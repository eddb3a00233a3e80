/** The completion chart of src/pages/StatisticPage/StatisticPage.tsx: every
    daily challenge's completion timestamps are bucketed by calendar day
    (`formatDate`), the buckets are collected per title, the union of all
    days becomes the chronologically sorted labels, and each title gets one
    zero-filled series over those labels.

    The calendar decomposition of a timestamp (`new Date(ts)` with
    `getDate`, `getMonth`, `getFullYear` in the local time zone) is the
    parameter `calendar`. */
module StatisticPage {
  import opened Wrappers
  import opened Types
  import JsText
  import JsArray

  type DayOfMonth = d: int | 1 <= d <= 31 witness 1
  type MonthIndex = m: int | 0 <= m < 12

  /** What `getDate()`, `getMonth()` and `getFullYear()` report. */
  datatype LocalDate = LocalDate(date: DayOfMonth, monthIndex: MonthIndex, fullYear: nat)

  /** `formatDate`: "DD/MM/YYYY", day and month padded to two digits, the
      month counted from 1. */
  function FormatDate(d: LocalDate): string {
    JsText.PadTwo(d.date) + "/" + JsText.PadTwo(d.monthIndex + 1) + "/" + JsText.IntToString(d.fullYear)
  }

  /** The shape of a key: two digits holding the day, a slash, two digits
      holding the month counted from 1, a slash, the year's decimal form. */
  lemma FormatDateShape(d: LocalDate)
    ensures var key := FormatDate(d);
      && |key| >= 7 && key[2] == '/' && key[5] == '/'
      && JsText.AllDigits(key[..2]) && JsText.DigitsValue(key[..2]) == d.date
      && JsText.AllDigits(key[3..5]) && JsText.DigitsValue(key[3..5]) == d.monthIndex + 1
      && key[6..] == JsText.IntToString(d.fullYear)
  {
    var day := JsText.PadTwo(d.date);
    var month := JsText.PadTwo(d.monthIndex + 1);
    var key := FormatDate(d);
    assert key[..2] == day && key[3..5] == month;
  }

  /** The comparator key of the label sort: a key "DD/MM/YYYY" read as the
      date "YYYY-MM-DD", as a number that orders like its time value
      (year, then month, then day); anything else reads as 0. */
  function DateOrdinal(key: string): int {
    if |key| >= 7 && key[2] == '/' && key[5] == '/'
       && JsText.AllDigits(key[..2]) && JsText.AllDigits(key[3..5]) && JsText.AllDigits(key[6..])
    then JsText.DigitsValue(key[6..]) * 10000 + JsText.DigitsValue(key[3..5]) * 100 + JsText.DigitsValue(key[..2])
    else 0
  }

  /** Calendar order of local dates: by year, then month, then day. */
  predicate Earlier(a: LocalDate, b: LocalDate) {
    || a.fullYear < b.fullYear
    || (a.fullYear == b.fullYear && a.monthIndex < b.monthIndex)
    || (a.fullYear == b.fullYear && a.monthIndex == b.monthIndex && a.date < b.date)
  }

  /** Reading a formatted key back gives the date it was made from. */
  lemma DateOrdinalOfFormat(d: LocalDate)
    ensures DateOrdinal(FormatDate(d)) == d.fullYear * 10000 + (d.monthIndex + 1) * 100 + d.date
  {
    FormatDateShape(d);
    JsText.NatToStringValue(d.fullYear);
  }

  /** The label sort is chronological: an earlier day sorts first. */
  lemma EarlierDateSortsFirst(a: LocalDate, b: LocalDate)
    requires Earlier(a, b)
    ensures DateOrdinal(FormatDate(a)) < DateOrdinal(FormatDate(b))
  {
    DateOrdinalOfFormat(a);
    DateOrdinalOfFormat(b);
  }

  /** Distinct days get distinct keys. */
  lemma FormatDateInjective(a: LocalDate, b: LocalDate)
    requires FormatDate(a) == FormatDate(b)
    ensures a == b
  {
    if a != b {
      if Earlier(a, b) {
        EarlierDateSortsFirst(a, b);
      } else {
        EarlierDateSortsFirst(b, a);
      }
    }
  }

  // ---------------------------------------------------------------------
  // Per-challenge histogram

  /** `challenge.isCompletedData || []` */
  function Timestamps(c: Challenge): seq<int> {
    c.isCompletedData.GetOr([])
  }

  /** The day key of every timestamp, in order. */
  function DateKeys(ts: seq<int>, calendar: int -> LocalDate): (keys: seq<string>)
    ensures |keys| == |ts|
  {
    seq(|ts|, i requires 0 <= i < |ts| => FormatDate(calendar(ts[i])))
  }

  /** Each key that occurs, mapped to the number of its occurrences. */
  function DateCounts(keys: seq<string>): map<string, nat> {
    map k | k in keys :: multiset(keys)[k]
  }

  lemma DateCountsSnoc(keys: seq<string>, k: string)
    ensures DateCounts(keys + [k]) == DateCounts(keys)[k := (if k in DateCounts(keys) then DateCounts(keys)[k] else 0) + 1]
  {
    var whole := keys + [k];
    assert forall x :: x in whole <==> x in keys || x == k;
    assert multiset(whole) == multiset(keys) + multiset{k};
  }

  /** One more timestamp counted into the tally of a prefix gives the tally
      of the next prefix. */
  lemma CountOneMore(m: map<string, nat>, ts: seq<int>, calendar: int -> LocalDate, i: nat)
    requires i < |ts| && m == DateCounts(DateKeys(ts, calendar)[..i])
    ensures var k := FormatDate(calendar(ts[i]));
      m[k := (if k in m then m[k] else 0) + 1] == DateCounts(DateKeys(ts, calendar)[..i + 1])
  {
    var keys := DateKeys(ts, calendar);
    JsArray.TakeSnoc(keys, i);
    DateCountsSnoc(keys[..i], keys[i]);
  }

  /** The inner `forEach` of the chart effect: `dateCountMap[dateKey] =
      (dateCountMap[dateKey] || 0) + 1` for each timestamp. */
  method CountDates(timestamps: seq<int>, calendar: int -> LocalDate) returns (dateCountMap: map<string, nat>)
    ensures dateCountMap == DateCounts(DateKeys(timestamps, calendar))
  {
    dateCountMap := map[];
    for i := 0 to |timestamps|
      invariant dateCountMap == DateCounts(DateKeys(timestamps, calendar)[..i])
    {
      var dateKey := FormatDate(calendar(timestamps[i]));
      CountOneMore(dateCountMap, timestamps, calendar, i);
      dateCountMap := dateCountMap[dateKey := (if dateKey in dateCountMap then dateCountMap[dateKey] else 0) + 1];
    }
    JsArray.TakeAll(DateKeys(timestamps, calendar));
  }

  // ---------------------------------------------------------------------
  // Collecting per title

  function Titles(cs: seq<Challenge>): (r: seq<string>)
    ensures |r| == |cs|
  {
    if cs == [] then [] else Titles(cs[..|cs| - 1]) + [cs[|cs| - 1].title]
  }

  /** The last challenge in the list with title `t`: its buckets are the
      ones that survive, each assignment to `dataByTitle[title]` replacing
      the previous one. */
  function LastWithTitle(cs: seq<Challenge>, t: string): (c: Challenge)
    requires t in Titles(cs)
    ensures c in cs && c.title == t
  {
    var last := cs[|cs| - 1];
    if last.title == t then last
    else
      var p := cs[..|cs| - 1];
      assert Titles(cs) == Titles(p) + [last.title];
      LastWithTitle(p, t)
  }

  /** The buckets the chart keeps for title `t`. */
  function TitleCounts(cs: seq<Challenge>, t: string, calendar: int -> LocalDate): map<string, nat>
    requires t in Titles(cs)
  {
    DateCounts(DateKeys(Timestamps(LastWithTitle(cs, t)), calendar))
  }

  lemma TitlesSnoc(cs: seq<Challenge>, c: Challenge)
    ensures Titles(cs + [c]) == Titles(cs) + [c.title]
    ensures Titles(cs + [c])[..|cs|] == Titles(cs)
  {
    JsArray.SnocFront(cs, c);
  }

  /** Appending a challenge replaces the buckets of its own title only. */
  lemma TitleCountsSnoc(cs: seq<Challenge>, c: Challenge, t: string, calendar: int -> LocalDate)
    requires t in Titles(cs + [c])
    ensures t != c.title ==> t in Titles(cs)
    ensures TitleCounts(cs + [c], t, calendar)
         == if t == c.title then DateCounts(DateKeys(Timestamps(c), calendar)) else TitleCounts(cs, t, calendar)
  {
    TitlesSnoc(cs, c);
    JsArray.SnocFront(cs, c);
  }

  /** `dataByTitle[title] = ...` for one more challenge keeps the buckets
      equal to those of the last challenge of each title. */
  lemma AssignKeepsBuckets(byTitle: map<string, map<string, nat>>, before: seq<Challenge>, c: Challenge,
                           counts: map<string, nat>, calendar: int -> LocalDate)
    requires forall t :: t in byTitle <==> t in Titles(before)
    requires forall t :: t in byTitle ==> byTitle[t] == TitleCounts(before, t, calendar)
    requires counts == DateCounts(DateKeys(Timestamps(c), calendar))
    ensures forall t :: t in byTitle[c.title := counts] <==> t in Titles(before + [c])
    ensures forall t :: t in byTitle[c.title := counts] ==>
      byTitle[c.title := counts][t] == TitleCounts(before + [c], t, calendar)
  {
    TitlesSnoc(before, c);
    var next := byTitle[c.title := counts];
    forall t | t in next ensures next[t] == TitleCounts(before + [c], t, calendar) {
      TitleCountsSnoc(before, c, t, calendar);
    }
  }

  /** The challenges that get an entry in `dataByTitle`: all but those
      titled `"__proto__"`, whose assignment replaces the object's
      prototype, so that `Object.values` and `Object.entries` never see it. */
  function Charted(cs: seq<Challenge>): (r: seq<Challenge>)
    ensures |r| <= |cs|
  {
    if cs == [] then []
    else
      var last := cs[|cs| - 1];
      Charted(cs[..|cs| - 1]) + (if last.title != JsText.ProtoKey then [last] else [])
  }

  lemma ChartedNext(cs: seq<Challenge>, i: nat)
    requires i < |cs|
    ensures Charted(cs[..i + 1]) == Charted(cs[..i]) + (if cs[i].title != JsText.ProtoKey then [cs[i]] else [])
  {
    assert cs[..i + 1][..i] == cs[..i];
  }

  /** A title is charted iff some challenge carries it and it is not
      `"__proto__"`. */
  lemma {:induction false} ChartedTitles(cs: seq<Challenge>, t: string)
    ensures t in Titles(Charted(cs)) <==> t in Titles(cs) && t != JsText.ProtoKey
  {
    if cs != [] {
      var p := cs[..|cs| - 1];
      var c := cs[|cs| - 1];
      ChartedTitles(p, t);
      if c.title != JsText.ProtoKey {
        assert Charted(cs) == Charted(p) + [c];
        TitlesSnoc(Charted(p), c);
      } else {
        assert Charted(cs) == Charted(p);
      }
    }
  }

  /** `order` and `byTitle` are what the outer `forEach` has collected from
      the challenges `kept`: the titles in order of first appearance, and
      for each the histogram of the last challenge carrying it. */
  ghost predicate Collected(kept: seq<Challenge>, calendar: int -> LocalDate,
                      order: seq<string>, byTitle: map<string, map<string, nat>>) {
    && order == JsArray.FirstOccurrences(Titles(kept))
    && (forall t :: t in byTitle <==> t in Titles(kept))
    && (forall t :: t in byTitle ==> byTitle[t] == TitleCounts(kept, t, calendar))
  }

  /** One more assignment `dataByTitle[c.title] = ...` keeps the collection
      in step with the challenges. */
  lemma CollectOne(kept: seq<Challenge>, c: Challenge, calendar: int -> LocalDate,
                   order: seq<string>, byTitle: map<string, map<string, nat>>, counts: map<string, nat>)
    requires Collected(kept, calendar, order, byTitle)
    requires counts == DateCounts(DateKeys(Timestamps(c), calendar))
    ensures Collected(kept + [c], calendar,
                      if c.title in byTitle then order else order + [c.title],
                      byTitle[c.title := counts])
  {
    TitlesSnoc(kept, c);
    JsArray.FirstOccurrencesSnoc(Titles(kept), c.title);
    AssignKeepsBuckets(byTitle, kept, c, counts, calendar);
  }

  /** The outer `forEach` that fills `dataByTitle`. `order` is the order of
      its keys: a title takes its place when first assigned and keeps it
      when later overwritten. The histogram of a `"__proto__"` challenge is
      computed but lands in no entry. */
  method DataByTitle(cs: seq<Challenge>, calendar: int -> LocalDate)
    returns (order: seq<string>, byTitle: map<string, map<string, nat>>)
    ensures order == JsArray.FirstOccurrences(Titles(Charted(cs)))
    ensures forall t :: t in byTitle <==> t in Titles(Charted(cs))
    ensures forall t :: t in byTitle ==> byTitle[t] == TitleCounts(Charted(cs), t, calendar)
  {
    order := [];
    byTitle := map[];
    for i := 0 to |cs|
      invariant Collected(Charted(cs[..i]), calendar, order, byTitle)
    {
      var title := cs[i].title;
      var dateCountMap := CountDates(Timestamps(cs[i]), calendar);
      ChartedNext(cs, i);
      if title != JsText.ProtoKey {
        CollectOne(Charted(cs[..i]), cs[i], calendar, order, byTitle, dateCountMap);
        if title !in byTitle {
          order := order + [title];
        }
        byTitle := byTitle[title := dateCountMap];
      } else {
        assert Charted(cs[..i + 1]) == Charted(cs[..i]);
      }
    }
    JsArray.TakeAll(cs);
  }

  // ---------------------------------------------------------------------
  // Labels

  /** Every day that some title has a bucket for. */
  predicate HasDay(byTitle: map<string, map<string, nat>>, k: string) {
    exists t :: t in byTitle && k in byTitle[t]
  }

  /** `Array.from(set)`: the elements of a finite set, each once. The order
      in which the set was filled is not kept; the sort that follows makes
      it irrelevant for keys with distinct dates. */
  method SetToSeq(s: set<string>) returns (xs: seq<string>)
    ensures JsArray.NoDup(xs)
    ensures forall x :: x in xs <==> x in s
  {
    xs := [];
    var rest := s;
    while rest != {}
      invariant rest <= s
      invariant JsArray.NoDup(xs)
      invariant forall x :: x in xs <==> x in s && x !in rest
      decreases rest
    {
      var x :| x in rest;
      xs := xs + [x];
      rest := rest - {x};
    }
  }

  /** `allDatesSet` and `sortedDates`: the union of every title's days,
      each once, sorted by date. */
  method ChartLabels(byTitle: map<string, map<string, nat>>) returns (labels: seq<string>)
    ensures JsArray.NoDup(labels)
    ensures JsArray.SortedBy(labels, DateOrdinal)
    ensures forall k :: k in labels <==> HasDay(byTitle, k)
  {
    var allDates: set<string> := {};
    var pending := byTitle.Keys;
    while pending != {}
      invariant pending <= byTitle.Keys
      invariant forall k :: k in allDates <==> exists t :: t in byTitle && t !in pending && k in byTitle[t]
      decreases pending
    {
      var t :| t in pending;
      allDates := allDates + byTitle[t].Keys;
      pending := pending - {t};
    }
    var unsorted := SetToSeq(allDates);
    labels := JsArray.SortBy(unsorted, DateOrdinal);
    JsArray.SortBySorted(unsorted, DateOrdinal);
    JsArray.NoDupPermutation(unsorted, labels);
    forall k ensures k in labels <==> k in unsorted {
      assert k in labels <==> k in multiset(labels);
    }
  }

  // ---------------------------------------------------------------------
  // Datasets

  /** `sortedDates.map(date => dates[date] || 0)` */
  function Series(labels: seq<string>, dates: map<string, nat>): (data: seq<nat>)
    ensures |data| == |labels|
    ensures forall i :: 0 <= i < |labels| ==> data[i] == if labels[i] in dates then dates[labels[i]] else 0
  {
    if labels == [] then [] else [if labels[0] in dates then dates[labels[0]] else 0] + Series(labels[1..], dates)
  }

  function Sum(s: seq<nat>): nat {
    if s == [] then 0 else s[0] + Sum(s[1..])
  }

  lemma {:induction false} SeriesOfSnoc(labels: seq<string>, keys: seq<string>, k: string)
    requires JsArray.NoDup(labels)
    ensures Sum(Series(labels, DateCounts(keys + [k])))
         == Sum(Series(labels, DateCounts(keys))) + (if k in labels then 1 else 0)
  {
    DateCountsSnoc(keys, k);
    if labels != [] {
      var rest := labels[1..];
      assert JsArray.NoDup(rest) by {
        forall i, j | 0 <= i < j < |rest| ensures rest[i] != rest[j] {
          assert rest[i] == labels[i + 1] && rest[j] == labels[j + 1];
        }
      }
      SeriesOfSnoc(rest, keys, k);
      assert Series(labels, DateCounts(keys + [k]))[1..] == Series(rest, DateCounts(keys + [k]));
      assert Series(labels, DateCounts(keys))[1..] == Series(rest, DateCounts(keys));
      if labels[0] == k {
        assert k !in rest by {
          forall i | 0 <= i < |rest| ensures rest[i] != k {
            assert rest[i] == labels[i + 1];
          }
        }
      } else {
        assert k in labels <==> k in rest;
      }
    }
  }

  lemma {:induction false} SeriesOfNothing(labels: seq<string>)
    ensures Sum(Series(labels, DateCounts([]))) == 0
  {
    if labels != [] {
      SeriesOfNothing(labels[1..]);
      assert Series(labels, DateCounts([]))[1..] == Series(labels[1..], DateCounts([]));
    }
  }

  /** A title's series accounts for every one of its completions: when the
      labels hold each of its days once, the series sums to the number of
      timestamps. */
  lemma {:induction false} SeriesSum(labels: seq<string>, keys: seq<string>)
    requires JsArray.NoDup(labels)
    requires forall i :: 0 <= i < |keys| ==> keys[i] in labels
    ensures Sum(Series(labels, DateCounts(keys))) == |keys|
  {
    if keys == [] {
      SeriesOfNothing(labels);
    } else {
      var p := keys[..|keys| - 1];
      var k := keys[|keys| - 1];
      JsArray.LastSplit(keys);
      SeriesSum(labels, p);
      SeriesOfSnoc(labels, p, k);
    }
  }

  datatype Dataset = Dataset(title: string, data: seq<nat>)
  datatype ChartData = ChartData(labels: seq<string>, datasets: seq<Dataset>)

  /** `Object.entries(dataByTitle).map(...)`: one dataset per title, in key
      order. */
  function Datasets(order: seq<string>, byTitle: map<string, map<string, nat>>, labels: seq<string>): (r: seq<Dataset>)
    ensures |r| == |order|
    ensures forall i :: 0 <= i < |order| ==> r[i].title == order[i] && |r[i].data| == |labels|
  {
    seq(|order|, i requires 0 <= i < |order| =>
      Dataset(order[i], Series(labels, if order[i] in byTitle then byTitle[order[i]] else map[])))
  }

  /** The series of one title counts, at each label, the title's
      completions on that day, and adds up to all of them when every day
      of the title is a label. */
  lemma TitleSeries(cs: seq<Challenge>, t: string, calendar: int -> LocalDate,
                    byTitle: map<string, map<string, nat>>, labels: seq<string>)
    requires t in Titles(cs) && t in byTitle && byTitle[t] == TitleCounts(cs, t, calendar)
    requires JsArray.NoDup(labels)
    requires forall k :: k in byTitle[t] ==> k in labels
    ensures var keys := DateKeys(Timestamps(LastWithTitle(cs, t)), calendar);
      var data := Series(labels, byTitle[t]);
      && (forall j :: 0 <= j < |labels| ==> data[j] == multiset(keys)[labels[j]])
      && Sum(data) == |keys|
  {
    var keys := DateKeys(Timestamps(LastWithTitle(cs, t)), calendar);
    forall j | 0 <= j < |keys| ensures keys[j] in labels {
      assert keys[j] in byTitle[t];
    }
    SeriesSum(labels, keys);
  }

  /** One dataset per title, in the given order, each holding at every label
      the number of that title's completions on the day, and adding up to
      all of the title's completions. */
  predicate CountsCompletions(cs: seq<Challenge>, calendar: int -> LocalDate, titles: seq<string>,
                              labels: seq<string>, datasets: seq<Dataset>)
    requires forall i :: 0 <= i < |titles| ==> titles[i] in Titles(cs)
  {
    && |datasets| == |titles|
    && forall i :: 0 <= i < |titles| ==>
         && datasets[i].title == titles[i]
         && |datasets[i].data| == |labels|
         && (forall j :: 0 <= j < |labels| ==>
               datasets[i].data[j] == multiset(DateKeys(Timestamps(LastWithTitle(cs, titles[i])), calendar))[labels[j]])
         && Sum(datasets[i].data) == |Timestamps(LastWithTitle(cs, titles[i]))|
  }

  /** Every dataset of the chart: at each label the number of completions
      that day of the last challenge carrying its title, adding up to all of
      that challenge's completions. */
  lemma DatasetsCountCompletions(cs: seq<Challenge>, calendar: int -> LocalDate, order: seq<string>,
                                 byTitle: map<string, map<string, nat>>, labels: seq<string>)
    requires order == JsArray.FirstOccurrences(Titles(cs))
    requires forall t :: t in byTitle <==> t in Titles(cs)
    requires forall t :: t in byTitle ==> byTitle[t] == TitleCounts(cs, t, calendar)
    requires JsArray.NoDup(labels)
    requires forall k :: k in labels <==> HasDay(byTitle, k)
    ensures forall i :: 0 <= i < |order| ==> order[i] in Titles(cs)
    ensures CountsCompletions(cs, calendar, order, labels, Datasets(order, byTitle, labels))
  {
    var datasets := Datasets(order, byTitle, labels);
    forall i | 0 <= i < |order|
      ensures && (forall j :: 0 <= j < |labels| ==>
                    datasets[i].data[j] == multiset(DateKeys(Timestamps(LastWithTitle(cs, order[i])), calendar))[labels[j]])
              && Sum(datasets[i].data) == |Timestamps(LastWithTitle(cs, order[i]))|
    {
      var t := order[i];
      assert t in Titles(cs);
      forall k | k in byTitle[t] ensures k in labels {
        assert HasDay(byTitle, k);
      }
      TitleSeries(cs, t, calendar, byTitle, labels);
    }
  }

  /** The chart effect. With no daily challenges nothing is computed.
      Otherwise the labels are the distinct days of the surviving buckets,
      in date order; there is one dataset per distinct title, in order of
      first appearance, whose value at each label is the number of
      completions on that day of the last challenge with that title (0 when
      there are none) and whose values add up to that challenge's number of
      completions. A challenge titled `"__proto__"` gets no dataset and adds
      no label, since its assignment into `dataByTitle` replaces the
      object's prototype instead of adding an entry. */
  method StatisticChart(dailyChallenges: seq<Challenge>, calendar: int -> LocalDate) returns (chart: Option<ChartData>)
    ensures dailyChallenges == [] <==> chart.None?
    ensures chart.Some? ==>
      var kept := Charted(dailyChallenges);
      var titles := JsArray.FirstOccurrences(Titles(kept));
      var labels := chart.value.labels;
      var datasets := chart.value.datasets;
      && JsArray.NoDup(labels) && JsArray.SortedBy(labels, DateOrdinal)
      && (forall k :: k in labels <==>
            exists t :: t in Titles(kept) && k in TitleCounts(kept, t, calendar))
      && (forall i :: 0 <= i < |titles| ==> titles[i] in Titles(kept) && titles[i] != JsText.ProtoKey)
      && CountsCompletions(kept, calendar, titles, labels, datasets)
  {
    if dailyChallenges == [] {
      return None;
    }
    var order, byTitle := DataByTitle(dailyChallenges, calendar);
    var labels := ChartLabels(byTitle);
    var datasets := Datasets(order, byTitle, labels);
    DatasetsCountCompletions(Charted(dailyChallenges), calendar, order, byTitle, labels);
    forall t | t in Titles(Charted(dailyChallenges)) ensures t != JsText.ProtoKey {
      ChartedTitles(dailyChallenges, t);
    }
    chart := Some(ChartData(labels, datasets));
  }
}
