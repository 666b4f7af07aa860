/** The statistics of `src/pages/GardenPage.tsx`: the monthly summary (`getMonthlyStats`)
    over the loaded archives, and the weekly report over seven day keys read from the
    stored map. */
module GardenStats {
  import opened Dates
  import opened ArchiveStore
  import opened Garden

  // ---------------------------------------------------------------------------------------
  // The days of the month

  /** The keys of every day of month `m` of year `y`, in order. */
  function MonthKeys(y: nat, m: nat): seq<string>
    requires ValidYear(y) && 1 <= m <= 12
  {
    seq(DaysInMonth(y, m), i requires 0 <= i < DaysInMonth(y, m) => FormatDateKey(y, m, i + 1))
  }

  /** The loop that pushes one key per day of the month. */
  method MonthDates(y: nat, m: nat) returns (ks: seq<string>)
    requires ValidYear(y) && 1 <= m <= 12
    ensures ks == MonthKeys(y, m)
    ensures |ks| == DaysInMonth(y, m)
  {
    var n := DaysInMonth(y, m);
    ks := [];
    var i := 1;
    while i <= n
      invariant 1 <= i <= n + 1
      invariant ks == MonthKeys(y, m)[..i - 1]
    {
      ks := ks + [FormatDateKey(y, m, i)];
      i := i + 1;
    }
  }

  /** The day number can be read back from a formatted key. */
  lemma DayOfKey(y: nat, m: nat, d: nat)
    requires ValidYear(y) && 1 <= m <= 12 && 1 <= d <= 31
    ensures var k := FormatDateKey(y, m, d); 10 * DigitValue(k[8]) + DigitValue(k[9]) == d
  {
    var k := FormatDateKey(y, m, d);
    assert k[8..10] == Pad2(d);
    assert DigitValue(k[8]) == d / 10 && DigitValue(k[9]) == d % 10;
  }

  /** No two days of a month share a key. */
  lemma MonthKeysDistinct(y: nat, m: nat)
    requires ValidYear(y) && 1 <= m <= 12
    ensures Distinct(MonthKeys(y, m))
  {
    var ks := MonthKeys(y, m);
    forall i, j | 0 <= i < j < |ks|
      ensures ks[i] != ks[j]
    {
      DayOfKey(y, m, i + 1);
      DayOfKey(y, m, j + 1);
    }
  }

  // ---------------------------------------------------------------------------------------
  // The map by date

  /** `archives.forEach(a => { all[a.date] = a })`: each date maps to the LAST loaded archive
      with that date (the calendar's `find` takes the first). */
  function LastByDate(archives: seq<Entry>): (idx: map<string, Entry>)
    requires AllArchives(archives)
    ensures forall k :: k in idx ==> idx[k].Archive? && idx[k].date == k
  {
    if archives == [] then map[]
    else
      var front := archives[..|archives| - 1];
      var last := archives[|archives| - 1];
      LastByDate(front)[last.date := last]
  }

  /** Every loaded archive's date is a key of the map, and nothing else is. */
  lemma {:induction false} LastByDateKeys(archives: seq<Entry>, k: string)
    requires AllArchives(archives)
    ensures k in LastByDate(archives) <==> exists i :: 0 <= i < |archives| && archives[i].date == k
    decreases |archives|
  {
    if archives != [] {
      var front := archives[..|archives| - 1];
      LastByDateKeys(front, k);
      assert forall i :: 0 <= i < |front| ==> front[i] == archives[i];
    }
  }

  /** `archives[i]` has date `k` and no later archive does. */
  predicate LastWithDate(archives: seq<Entry>, i: int, k: string)
    requires AllArchives(archives)
  {
    0 <= i < |archives| && archives[i].date == k
    && forall j :: i < j < |archives| ==> archives[j].date != k
  }

  /** The position of the last archive dated `k`, or -1 when there is none. */
  function LastIndex(archives: seq<Entry>, k: string): int
    requires AllArchives(archives)
  {
    if archives == [] then -1
    else if archives[|archives| - 1].date == k then |archives| - 1
    else LastIndex(archives[..|archives| - 1], k)
  }

  /** The entry under a date is the last archive with that date. */
  lemma {:induction false} LastByDateIsLast(archives: seq<Entry>, k: string)
    requires AllArchives(archives) && k in LastByDate(archives)
    ensures LastWithDate(archives, LastIndex(archives, k), k)
    ensures archives[LastIndex(archives, k)] == LastByDate(archives)[k]
    decreases |archives|
  {
    var front := archives[..|archives| - 1];
    var last := archives[|archives| - 1];
    assert LastByDate(archives) == LastByDate(front)[last.date := last];
    if last.date != k {
      assert k in LastByDate(front);
      LastByDateIsLast(front, k);
    }
  }

  /** The `forEach` that fills the map. */
  method IndexByDate(archives: seq<Entry>) returns (idx: map<string, Entry>)
    requires AllArchives(archives)
    ensures idx == LastByDate(archives)
  {
    idx := map[];
    var i := 0;
    while i < |archives|
      invariant 0 <= i <= |archives|
      invariant idx == LastByDate(archives[..i])
    {
      assert archives[..i + 1][..i] == archives[..i];
      idx := idx[archives[i].date := archives[i]];
      i := i + 1;
    }
    assert archives[..i] == archives;
  }

  // ---------------------------------------------------------------------------------------
  // Recorded days

  /** `dates.filter(d => idx[d])`: the dates that have an entry, in order. */
  function KeysIn(ds: seq<string>, idx: map<string, Entry>): (r: seq<string>)
    ensures |r| <= |ds|
    ensures forall d :: d in r <==> d in ds && d in idx
  {
    if ds == [] then []
    else
      var front := ds[..|ds| - 1];
      var last := ds[|ds| - 1];
      assert forall d :: d in ds <==> d in front || d == last;
      KeysIn(front, idx) + (if last in idx then [last] else [])
  }

  /** Filtering a list without repeats gives a list without repeats. */
  lemma {:induction false} KeysInDistinct(ds: seq<string>, idx: map<string, Entry>)
    requires Distinct(ds)
    ensures Distinct(KeysIn(ds, idx))
    decreases |ds|
  {
    if ds != [] {
      var front := ds[..|ds| - 1];
      var last := ds[|ds| - 1];
      assert forall i :: 0 <= i < |front| ==> front[i] == ds[i];
      KeysInDistinct(front, idx);
      assert last !in KeysIn(front, idx);
    }
  }

  /** Over a list without repeats, the filter is as long as the number of listed dates that
      have an entry. */
  lemma KeysInCount(ds: seq<string>, idx: map<string, Entry>)
    requires Distinct(ds)
    ensures |KeysIn(ds, idx)| == |set d | d in ds && d in idx|
  {
    var r := KeysIn(ds, idx);
    KeysInDistinct(ds, idx);
    DistinctCard(r);
    assert (set d | d in r) == (set d | d in ds && d in idx);
  }

  /** The `filter` over the month's dates. */
  method RecordedDates(ds: seq<string>, idx: map<string, Entry>) returns (rec: seq<string>)
    ensures rec == KeysIn(ds, idx)
  {
    rec := [];
    var i := 0;
    while i < |ds|
      invariant 0 <= i <= |ds|
      invariant rec == KeysIn(ds[..i], idx)
    {
      assert ds[..i + 1][..i] == ds[..i];
      if ds[i] in idx {
        rec := rec + [ds[i]];
      }
      i := i + 1;
    }
    assert ds[..i] == ds;
  }

  // ---------------------------------------------------------------------------------------
  // Mood counts

  /** The four counters of `moodCounts`. */
  datatype MoodTally = MoodTally(positive: nat, anxious: nat, calm: nat, tired: nat)

  /** The counter of a named category; `Other` has none. */
  function Count(t: MoodTally, c: Category): nat {
    match c
    case Positive => t.positive
    case Anxious => t.anxious
    case Calm => t.calm
    case Tired => t.tired
    case Other => 0
  }

  function Total(t: MoodTally): nat {
    t.positive + t.anxious + t.calm + t.tired
  }

  /** One record's step of the count: the counter of its mood's category goes up, and nothing
      happens for a mood of no category. */
  function BumpMood(t: MoodTally, c: Category): (r: MoodTally)
    ensures forall d :: d != Other ==> Count(r, d) == Count(t, d) + (if c == d then 1 else 0)
    ensures Total(r) == Total(t) + (if c != Other then 1 else 0)
  {
    match c
    case Positive => t.(positive := t.positive + 1)
    case Anxious => t.(anxious := t.anxious + 1)
    case Calm => t.(calm := t.calm + 1)
    case Tired => t.(tired := t.tired + 1)
    case Other => t
  }

  /** The counters after counting the categories `cs` of the records in order. */
  function TallyMoods(cs: seq<Category>): MoodTally {
    if cs == [] then MoodTally(0, 0, 0, 0)
    else BumpMood(TallyMoods(cs[..|cs| - 1]), cs[|cs| - 1])
  }

  /** How many of the records fall in category `c`. */
  function NumIn(cs: seq<Category>, c: Category): nat {
    if cs == [] then 0
    else NumIn(cs[..|cs| - 1], c) + (if cs[|cs| - 1] == c then 1 else 0)
  }

  /** Each counter counts the records of its category. */
  lemma {:induction false} TallyMoodsCount(cs: seq<Category>, c: Category)
    requires c != Other
    ensures Count(TallyMoods(cs), c) == NumIn(cs, c)
    decreases |cs|
  {
    if cs != [] {
      var front := cs[..|cs| - 1];
      TallyMoodsCount(front, c);
      assert TallyMoods(cs) == BumpMood(TallyMoods(front), cs[|cs| - 1]);
    }
  }

  /** Every record bumps at most one counter: those of no category bump none. */
  lemma {:induction false} TallyMoodsTotal(cs: seq<Category>)
    ensures Total(TallyMoods(cs)) + NumIn(cs, Other) == |cs|
    decreases |cs|
  {
    if cs != [] {
      var front := cs[..|cs| - 1];
      TallyMoodsTotal(front);
      assert TallyMoods(cs) == BumpMood(TallyMoods(front), cs[|cs| - 1]);
    }
  }

  /** The values of the map are archives dated by their key. */
  predicate IndexOfArchives(idx: map<string, Entry>) {
    forall k :: k in idx ==> idx[k].Archive?
  }

  /** The mood categories of the recorded dates, in order. */
  function MoodsOf(rec: seq<string>, idx: map<string, Entry>): seq<Category>
    requires IndexOfArchives(idx) && forall d :: d in rec ==> d in idx
  {
    if rec == [] then []
    else MoodsOf(rec[..|rec| - 1], idx) + [CategoryOf(idx[rec[|rec| - 1]].mood)]
  }

  // ---------------------------------------------------------------------------------------
  // Keyword counts

  /** The keywords of the recorded dates, in order; a record without a keyword array adds
      none. */
  function KeywordStream(rec: seq<string>, idx: map<string, Entry>): seq<string>
    requires IndexOfArchives(idx) && forall d :: d in rec ==> d in idx
  {
    if rec == [] then []
    else
      var e := idx[rec[|rec| - 1]];
      KeywordStream(rec[..|rec| - 1], idx) + (if e.keywords.Some? then e.keywords.value else [])
  }

  /** `Object.entries(keywordCounts)`: (keyword, count) pairs in the order keywords first
      appeared. */
  type Tally = seq<(string, nat)>

  /** `counts[w] = (counts[w] || 0) + 1` */
  function BumpKeyword(t: Tally, w: string): Tally {
    if t == [] then [(w, 1)]
    else if t[0].0 == w then [(w, t[0].1 + 1)] + t[1..]
    else [t[0]] + BumpKeyword(t[1..], w)
  }

  /** The counts after counting `stream` in order. */
  function KeywordTally(stream: seq<string>): Tally {
    if stream == [] then []
    else BumpKeyword(KeywordTally(stream[..|stream| - 1]), stream[|stream| - 1])
  }

  predicate DistinctNames(t: Tally) {
    forall i, j :: 0 <= i < j < |t| ==> t[i].0 != t[j].0
  }

  /** The count a tally holds for `w`, 0 when it has none. */
  function CountOf(t: Tally, w: string): nat {
    if t == [] then 0
    else if t[0].0 == w then t[0].1
    else CountOf(t[1..], w)
  }

  predicate Named(t: Tally, w: string) {
    exists i :: 0 <= i < |t| && t[i].0 == w
  }

  /** Counting one keyword raises its count by one and leaves every other count as it was. */
  lemma {:induction false} BumpKeywordCount(t: Tally, w: string)
    ensures forall x :: CountOf(BumpKeyword(t, w), x) == CountOf(t, x) + (if x == w then 1 else 0)
    decreases |t|
  {
    if t != [] && t[0].0 != w {
      BumpKeywordCount(t[1..], w);
      assert BumpKeyword(t, w)[1..] == BumpKeyword(t[1..], w);
    }
  }

  /** Counting one keyword adds its name, if it was missing, and no other. */
  lemma {:induction false} BumpKeywordNamed(t: Tally, w: string)
    ensures forall x :: Named(BumpKeyword(t, w), x) <==> Named(t, x) || x == w
    decreases |t|
  {
    var r := BumpKeyword(t, w);
    if t == [] {
      assert r[0].0 == w;
    } else if t[0].0 == w {
      assert forall i :: 0 <= i < |r| ==> r[i].0 == t[i].0;
    } else {
      var rest := t[1..];
      BumpKeywordNamed(rest, w);
      var br := BumpKeyword(rest, w);
      assert forall i :: 1 <= i < |r| ==> r[i] == br[i - 1];
      assert forall i :: 1 <= i < |t| ==> t[i] == rest[i - 1];
      forall x | Named(r, x) && x != t[0].0 ensures Named(br, x) {
        var i :| 0 <= i < |r| && r[i].0 == x;
        assert br[i - 1].0 == x;
      }
      forall x | Named(br, x) ensures Named(r, x) {
        var j :| 0 <= j < |br| && br[j].0 == x;
        assert r[j + 1].0 == x;
      }
      forall x | Named(t, x) && x != t[0].0 ensures Named(rest, x) {
        var i :| 0 <= i < |t| && t[i].0 == x;
        assert rest[i - 1].0 == x;
      }
      forall x | Named(rest, x) ensures Named(t, x) {
        var j :| 0 <= j < |rest| && rest[j].0 == x;
        assert t[j + 1].0 == x;
      }
      assert r[0].0 == t[0].0;
    }
  }

  /** Counting one keyword keeps the names distinct. */
  lemma {:induction false} BumpKeywordDistinct(t: Tally, w: string)
    requires DistinctNames(t)
    ensures DistinctNames(BumpKeyword(t, w))
    decreases |t|
  {
    var r := BumpKeyword(t, w);
    if t != [] && t[0].0 == w {
      assert forall i :: 0 <= i < |r| ==> r[i].0 == t[i].0;
    } else if t != [] {
      var rest := t[1..];
      assert DistinctNames(rest) by {
        forall i, j | 0 <= i < j < |rest| ensures rest[i].0 != rest[j].0 {
          assert rest[i] == t[i + 1] && rest[j] == t[j + 1];
        }
      }
      BumpKeywordDistinct(rest, w);
      BumpKeywordNamed(rest, w);
      var br := BumpKeyword(rest, w);
      assert forall i :: 1 <= i < |r| ==> r[i] == br[i - 1];
      assert !Named(rest, t[0].0) by {
        forall i | 0 <= i < |rest| ensures rest[i].0 != t[0].0 {
          assert rest[i] == t[i + 1];
        }
      }
      assert !Named(br, t[0].0);
      forall i, j | 0 <= i < j < |r| ensures r[i].0 != r[j].0 {
        if i == 0 {
          assert r[j] == br[j - 1];
        }
      }
    }
  }

  /** The tally names each keyword of the stream exactly once, with the number of times it
      occurs. */
  lemma {:induction false} KeywordTallySpec(stream: seq<string>)
    ensures DistinctNames(KeywordTally(stream))
    ensures forall x :: CountOf(KeywordTally(stream), x) == multiset(stream)[x]
    ensures forall x :: Named(KeywordTally(stream), x) <==> x in stream
    decreases |stream|
  {
    if stream != [] {
      var front := stream[..|stream| - 1];
      var w := stream[|stream| - 1];
      KeywordTallySpec(front);
      BumpKeywordDistinct(KeywordTally(front), w);
      BumpKeywordCount(KeywordTally(front), w);
      BumpKeywordNamed(KeywordTally(front), w);
      assert stream == front + [w];
      assert multiset(stream) == multiset(front) + multiset{w};
      assert forall x :: x in stream <==> x in front || x == w;
    }
  }

  /** In a tally with distinct names each entry holds the count of its own name. */
  lemma {:induction false} CountOfEntry(t: Tally, i: nat)
    requires DistinctNames(t) && i < |t|
    ensures CountOf(t, t[i].0) == t[i].1
    decreases i
  {
    if i > 0 {
      assert t[0].0 != t[i].0;
      var rest := t[1..];
      assert DistinctNames(rest) by {
        forall a, b | 0 <= a < b < |rest| ensures rest[a].0 != rest[b].0 {
          assert rest[a] == t[a + 1] && rest[b] == t[b + 1];
        }
      }
      assert rest[i - 1] == t[i];
      CountOfEntry(rest, i - 1);
    }
  }

  // ---------------------------------------------------------------------------------------
  // Sorting by count

  /** Counts never increase from left to right. */
  predicate SortedByCount(s: Tally) {
    forall i, j :: 0 <= i < j < |s| ==> s[i].1 >= s[j].1
  }

  /** Places `x` after every entry whose count is at least its own. */
  function InsertByCount(x: (string, nat), s: Tally): (r: Tally)
    ensures multiset(r) == multiset(s) + multiset{x}
    ensures |r| == |s| + 1
  {
    if s == [] then [x]
    else if s[0].1 >= x.1 then
      assert s == [s[0]] + s[1..];
      [s[0]] + InsertByCount(x, s[1..])
    else [x] + s
  }

  /** Inserting an entry no larger than a bound into entries no larger than it gives entries
      no larger than it. */
  lemma {:induction false} InsertByCountBound(x: (string, nat), s: Tally, b: nat)
    requires x.1 <= b && forall k :: 0 <= k < |s| ==> s[k].1 <= b
    ensures forall k :: 0 <= k < |InsertByCount(x, s)| ==> InsertByCount(x, s)[k].1 <= b
    decreases |s|
  {
    if s != [] && s[0].1 >= x.1 {
      var tail := s[1..];
      assert forall k :: 0 <= k < |tail| ==> tail[k] == s[k + 1];
      InsertByCountBound(x, tail, b);
      var r := InsertByCount(x, s);
      assert forall k :: 1 <= k < |r| ==> r[k] == InsertByCount(x, tail)[k - 1];
    }
  }

  /** Inserting into a list sorted by count keeps it sorted. */
  lemma {:induction false} InsertByCountSorted(x: (string, nat), s: Tally)
    requires SortedByCount(s)
    ensures SortedByCount(InsertByCount(x, s))
    decreases |s|
  {
    if s != [] && s[0].1 >= x.1 {
      var tail := s[1..];
      assert SortedByCount(tail) by {
        forall i, j | 0 <= i < j < |tail| ensures tail[i].1 >= tail[j].1 {
          assert tail[i] == s[i + 1] && tail[j] == s[j + 1];
        }
      }
      InsertByCountSorted(x, tail);
      var rest := InsertByCount(x, tail);
      assert forall k :: 0 <= k < |tail| ==> tail[k] == s[k + 1];
      InsertByCountBound(x, tail, s[0].1);
      var r := [s[0]] + rest;
      forall i, j | 0 <= i < j < |r| ensures r[i].1 >= r[j].1 {
        assert r[j] == rest[j - 1];
        if i > 0 {
          assert r[i] == rest[i - 1];
        }
      }
    } else if s != [] {
      var r := [x] + s;
      forall i, j | 0 <= i < j < |r| ensures r[i].1 >= r[j].1 {
        assert r[j] == s[j - 1];
        if i > 0 {
          assert r[i] == s[i - 1];
        } else {
          assert s[0].1 >= s[j - 1].1 || j == 1;
        }
      }
    }
  }

  /** `entries.sort((a, b) => b[1] - a[1])`: a stable sort by decreasing count, which is an
      insertion sort taking the entries in order. The result is sorted and a permutation. */
  function SortByCount(s: Tally): (r: Tally)
    ensures multiset(r) == multiset(s)
    ensures |r| == |s|
    ensures SortedByCount(r)
  {
    if s == [] then []
    else
      assert s == s[..|s| - 1] + [s[|s| - 1]];
      var sorted := SortByCount(s[..|s| - 1]);
      InsertByCountSorted(s[|s| - 1], sorted);
      InsertByCount(s[|s| - 1], sorted)
  }

  /** `.slice(0, 3).map(([keyword]) => keyword)` */
  function TopKeywords(t: Tally): (r: seq<string>)
    ensures |r| == if |t| < 3 then |t| else 3
    ensures forall i :: 0 <= i < |r| ==> r[i] == SortByCount(t)[i].0
  {
    var sorted := SortByCount(t);
    var n := if |sorted| < 3 then |sorted| else 3;
    seq(n, i requires 0 <= i < n => sorted[i].0)
  }

  /** Every entry of the sorted tally is a keyword of the stream with its number of
      occurrences. */
  lemma SortedEntryCounts(stream: seq<string>, k: nat)
    requires k < |SortByCount(KeywordTally(stream))|
    ensures var e := SortByCount(KeywordTally(stream))[k];
      e.0 in stream && e.1 == multiset(stream)[e.0]
  {
    var t := KeywordTally(stream);
    var sorted := SortByCount(t);
    KeywordTallySpec(stream);
    assert sorted[k] in multiset(sorted);
    assert sorted[k] in multiset(t);
    var m :| 0 <= m < |t| && t[m] == sorted[k];
    CountOfEntry(t, m);
    assert Named(t, sorted[k].0);
  }

  /** Every keyword of the stream has an entry in the sorted tally. */
  lemma SortedEntryOf(stream: seq<string>, w: string) returns (k: nat)
    requires w in stream
    ensures k < |SortByCount(KeywordTally(stream))|
    ensures SortByCount(KeywordTally(stream))[k] == (w, multiset(stream)[w])
  {
    var t := KeywordTally(stream);
    var sorted := SortByCount(t);
    KeywordTallySpec(stream);
    assert Named(t, w);
    var m :| 0 <= m < |t| && t[m].0 == w;
    CountOfEntry(t, m);
    assert t[m] in multiset(t);
    assert t[m] in multiset(sorted);
    k :| 0 <= k < |sorted| && sorted[k] == t[m];
  }

  /** The top keywords are at most three keywords of the stream; each is the name of the
      sorted entry at its place, whose count is the keyword's number of occurrences. */
  lemma TopKeywordsFromStream(stream: seq<string>)
    ensures var r := TopKeywords(KeywordTally(stream));
      var sorted := SortByCount(KeywordTally(stream));
      && |r| <= 3 && |r| <= |sorted|
      && forall i :: 0 <= i < |r| ==>
           r[i] == sorted[i].0 && r[i] in stream && sorted[i].1 == multiset(stream)[r[i]]
  {
    var r := TopKeywords(KeywordTally(stream));
    forall i | 0 <= i < |r|
      ensures r[i] in stream && SortByCount(KeywordTally(stream))[i].1 == multiset(stream)[r[i]]
    {
      SortedEntryCounts(stream, i);
    }
  }

  /** The top keywords come in order of non-increasing frequency. */
  lemma TopKeywordsOrdered(stream: seq<string>)
    ensures var r := TopKeywords(KeywordTally(stream));
      forall i, j :: 0 <= i < j < |r| ==> multiset(stream)[r[i]] >= multiset(stream)[r[j]]
  {
    TopKeywordsFromStream(stream);
  }

  /** No keyword left out occurs more often than a keyword taken. */
  lemma TopKeywordsDominate(stream: seq<string>, w: string)
    requires w in stream && w !in TopKeywords(KeywordTally(stream))
    ensures var r := TopKeywords(KeywordTally(stream));
      forall i :: 0 <= i < |r| ==> multiset(stream)[r[i]] >= multiset(stream)[w]
  {
    TopKeywordsFromStream(stream);
    var r := TopKeywords(KeywordTally(stream));
    var sorted := SortByCount(KeywordTally(stream));
    assert forall i :: 0 <= i < |r| ==> sorted[i].0 != w;
    var k := SortedEntryOf(stream, w);
    assert |r| <= k;
  }

  /** When fewer than three keywords are taken, every keyword of the stream is taken. */
  lemma TopKeywordsAllWhenFew(stream: seq<string>, w: string)
    requires w in stream && |TopKeywords(KeywordTally(stream))| < 3
    ensures w in TopKeywords(KeywordTally(stream))
  {
    TopKeywordsFromStream(stream);
    var r := TopKeywords(KeywordTally(stream));
    var k := SortedEntryOf(stream, w);
    assert r[k] == w;
  }

  // ---------------------------------------------------------------------------------------
  // Dominant mood

  /** `Object.entries(moodCounts)`, in declaration order. */
  function MoodEntries(t: MoodTally): seq<(string, nat)> {
    [("积极开心", t.positive), ("焦虑压力", t.anxious), ("平静专注", t.calm), ("疲惫一般", t.tired)]
  }

  /** The dominant mood: "平静专注" when every count is zero, otherwise the first entry with the
      largest count. */
  predicate IsDominant(name: string, t: MoodTally) {
    var es := MoodEntries(t);
    if forall i :: 0 <= i < 4 ==> es[i].1 == 0 then name == "平静专注"
    else exists i :: 0 <= i < 4 && name == es[i].0
           && (forall j :: 0 <= j < 4 ==> es[j].1 <= es[i].1)
           && (forall j :: 0 <= j < i ==> es[j].1 < es[i].1)
  }

  /** The dominant mood is determined by the counts: two answers that satisfy it agree. */
  lemma DominantUnique(a: string, b: string, t: MoodTally)
    requires IsDominant(a, t) && IsDominant(b, t)
    ensures a == b
  {
    var es := MoodEntries(t);
    if !forall i :: 0 <= i < 4 ==> es[i].1 == 0 {
      var i :| 0 <= i < 4 && a == es[i].0 && (forall j :: 0 <= j < 4 ==> es[j].1 <= es[i].1)
               && (forall j :: 0 <= j < i ==> es[j].1 < es[i].1);
      var k :| 0 <= k < 4 && b == es[k].0 && (forall j :: 0 <= j < 4 ==> es[j].1 <= es[k].1)
               && (forall j :: 0 <= j < k ==> es[j].1 < es[k].1);
      assert es[i].1 == es[k].1;
      assert i == k;
    }
  }

  /** The loop over the four counters with a strict comparison. */
  method DominantMood(t: MoodTally) returns (name: string)
    ensures IsDominant(name, t)
  {
    var es := MoodEntries(t);
    name := "平静专注";
    var maxCount := 0;
    ghost var best := -1;
    var k := 0;
    while k < 4
      invariant 0 <= k <= 4
      invariant -1 <= best < k
      invariant forall j :: 0 <= j < k ==> es[j].1 <= maxCount
      invariant best == -1 ==> name == "平静专注" && maxCount == 0
      invariant best != -1 ==> name == es[best].0 && maxCount == es[best].1 > 0
                               && forall j :: 0 <= j < best ==> es[j].1 < maxCount
    {
      if es[k].1 > maxCount {
        maxCount := es[k].1;
        name := es[k].0;
        best := k;
      }
      k := k + 1;
    }
    if best == -1 {
      assert forall i :: 0 <= i < 4 ==> es[i].1 == 0;
    } else {
      assert es[best].1 > 0;
    }
  }

  // ---------------------------------------------------------------------------------------
  // The monthly summary

  /** The `forEach` over the recorded dates: one mood step and one keyword step per key word
      for each date. */
  method CountRecorded(rec: seq<string>, idx: map<string, Entry>) returns (moods: MoodTally, counts: Tally)
    requires IndexOfArchives(idx) && forall d :: d in rec ==> d in idx
    ensures moods == TallyMoods(MoodsOf(rec, idx))
    ensures counts == KeywordTally(KeywordStream(rec, idx))
  {
    moods := MoodTally(0, 0, 0, 0);
    counts := [];
    var i := 0;
    while i < |rec|
      invariant 0 <= i <= |rec|
      invariant moods == TallyMoods(MoodsOf(rec[..i], idx))
      invariant counts == KeywordTally(KeywordStream(rec[..i], idx))
    {
      var e := idx[rec[i]];
      RecordedSnoc(rec, i, idx);
      moods := BumpMood(moods, CategoryOf(e.mood));
      if e.keywords.Some? {
        counts := AddKeywords(counts, KeywordStream(rec[..i], idx), e.keywords.value);
      } else {
        assert KeywordStream(rec[..i], idx) + [] == KeywordStream(rec[..i], idx);
      }
      i := i + 1;
    }
    assert rec[..i] == rec;
  }

  /** Extending the recorded dates by one appends that date's mood and keywords. */
  lemma RecordedSnoc(rec: seq<string>, i: nat, idx: map<string, Entry>)
    requires IndexOfArchives(idx) && forall d :: d in rec ==> d in idx
    requires i < |rec|
    ensures var e := idx[rec[i]];
            && MoodsOf(rec[..i + 1], idx) == MoodsOf(rec[..i], idx) + [CategoryOf(e.mood)]
            && KeywordStream(rec[..i + 1], idx)
               == KeywordStream(rec[..i], idx) + (if e.keywords.Some? then e.keywords.value else [])
            && TallyMoods(MoodsOf(rec[..i + 1], idx))
               == BumpMood(TallyMoods(MoodsOf(rec[..i], idx)), CategoryOf(e.mood))
  {
    assert rec[..i + 1][..i] == rec[..i];
    var before := MoodsOf(rec[..i], idx);
    var c := CategoryOf(idx[rec[i]].mood);
    assert (before + [c])[..|before|] == before;
  }

  /** Counting one more keyword of a record bumps that keyword in the tally. */
  lemma KeywordTallyStep(seen: seq<string>, kws: seq<string>, j: nat)
    requires j < |kws|
    ensures KeywordTally(seen + kws[..j + 1]) == BumpKeyword(KeywordTally(seen + kws[..j]), kws[j])
  {
    var next := seen + kws[..j + 1];
    assert next[..|next| - 1] == seen + kws[..j] && next[|next| - 1] == kws[j];
  }

  /** The inner `forEach` over one record's keywords. */
  method AddKeywords(counts: Tally, seen: seq<string>, kws: seq<string>) returns (r: Tally)
    requires counts == KeywordTally(seen)
    ensures r == KeywordTally(seen + kws)
  {
    r := counts;
    var j := 0;
    assert seen + kws[..0] == seen;
    while j < |kws|
      invariant 0 <= j <= |kws|
      invariant r == KeywordTally(seen + kws[..j])
    {
      KeywordTallyStep(seen, kws, j);
      r := BumpKeyword(r, kws[j]);
      j := j + 1;
    }
    assert kws[..j] == kws;
  }

  datatype MonthlyStats = MonthlyStats(recordedDays: nat, dominantMood: string, topKeywords: seq<string>)

  /** `getMonthlyStats` for month `m` of year `y`: the number of the month's days with a
      record (at most the month's length), the dominant mood of those records, and their
      three most frequent keywords. */
  method GetMonthlyStats(archives: seq<Entry>, y: nat, m: nat) returns (stats: MonthlyStats)
    requires AllArchives(archives) && ValidYear(y) && 1 <= m <= 12
    ensures var idx := LastByDate(archives);
            var rec := KeysIn(MonthKeys(y, m), idx);
            && stats.recordedDays == |rec| <= DaysInMonth(y, m)
            && stats.recordedDays == |set d | d in MonthKeys(y, m) && d in idx|
            && IsDominant(stats.dominantMood, TallyMoods(MoodsOf(rec, idx)))
            && stats.topKeywords == TopKeywords(KeywordTally(KeywordStream(rec, idx)))
  {
    var dates := MonthDates(y, m);
    var idx := IndexByDate(archives);
    var rec := RecordedDates(dates, idx);
    MonthKeysDistinct(y, m);
    KeysInCount(dates, idx);
    var moods, counts := CountRecorded(rec, idx);
    var dominant := DominantMood(moods);
    stats := MonthlyStats(|rec|, dominant, TopKeywords(counts));
  }

  // ---------------------------------------------------------------------------------------
  // The weekly report

  /** Component A: one slot per day, the mood category of the day's archive or nothing. */
  method WeekChart(s: Store, keys: seq<string>) returns (slots: seq<Option<Category>>)
    requires |keys| == 7
    ensures |slots| == 7
    ensures forall i :: 0 <= i < 7 ==>
      slots[i] == if Has(s, keys[i]) then Some(CategoryOf(s.vals[keys[i]].mood)) else None
  {
    slots := [];
    var i := 0;
    while i < 7
      invariant 0 <= i <= 7 && |slots| == i
      invariant forall j :: 0 <= j < i ==>
        slots[j] == if Has(s, keys[j]) then Some(CategoryOf(s.vals[keys[j]].mood)) else None
    {
      if Has(s, keys[i]) {
        slots := slots + [Some(CategoryOf(s.vals[keys[i]].mood))];
      } else {
        slots := slots + [None];
      }
      i := i + 1;
    }
  }

  /** The indices, below `n`, of the days that hold an archive. */
  function PresentDays(s: Store, keys: seq<string>, n: nat): set<nat>
    requires n <= |keys|
  {
    set i: nat | i < n && Has(s, keys[i])
  }

  /** Component B, first figure: the number of days of the week that hold an archive. */
  method WeekCount(s: Store, keys: seq<string>) returns (n: nat)
    requires |keys| == 7
    ensures n == |PresentDays(s, keys, 7)|
    ensures n <= 7
  {
    n := 0;
    var i := 0;
    while i < 7
      invariant 0 <= i <= 7
      invariant n == |PresentDays(s, keys, i)| && n <= i
    {
      if Has(s, keys[i]) {
        assert PresentDays(s, keys, i + 1) == PresentDays(s, keys, i) + {i};
        n := n + 1;
      } else {
        assert PresentDays(s, keys, i + 1) == PresentDays(s, keys, i);
      }
      i := i + 1;
    }
  }

  /** The keywords of the days below `n` that hold an archive with a keyword array. */
  function WeekKeywords(s: Store, keys: seq<string>, n: nat): set<string>
    requires n <= |keys|
  {
    set i, w | 0 <= i < n && Has(s, keys[i]) && s.vals[keys[i]].keywords.Some?
               && w in s.vals[keys[i]].keywords.value :: w
  }

  /** Taking in one more day adds that day's keywords, if it has any. */
  lemma WeekKeywordsStep(s: Store, keys: seq<string>, i: nat)
    requires i < |keys|
    ensures WeekKeywords(s, keys, i + 1)
            == WeekKeywords(s, keys, i)
               + if Has(s, keys[i]) && s.vals[keys[i]].keywords.Some?
                 then set w | w in s.vals[keys[i]].keywords.value
                 else {}
  {
  }

  /** The inner `forEach` that adds a day's keywords to the set. */
  method AddWords(all: set<string>, kws: seq<string>) returns (r: set<string>)
    ensures r == all + set w | w in kws
  {
    r := all;
    var j := 0;
    while j < |kws|
      invariant 0 <= j <= |kws|
      invariant r == all + set w | w in kws[..j]
    {
      assert kws[..j + 1] == kws[..j] + [kws[j]];
      r := r + {kws[j]};
      j := j + 1;
    }
    assert kws[..j] == kws;
  }

  /** Component B, second figure: the number of distinct keywords of the week. */
  method WeekKeywordCount(s: Store, keys: seq<string>) returns (n: nat)
    requires |keys| == 7
    ensures n == |WeekKeywords(s, keys, 7)|
  {
    var all: set<string> := {};
    var i := 0;
    while i < 7
      invariant 0 <= i <= 7
      invariant all == WeekKeywords(s, keys, i)
    {
      WeekKeywordsStep(s, keys, i);
      if Has(s, keys[i]) && s.vals[keys[i]].keywords.Some? {
        all := AddWords(all, s.vals[keys[i]].keywords.value);
      }
      i := i + 1;
    }
    n := |all|;
  }

  const DefaultQuote: string := "所有的不确定，都在实践中消解。"

  function Quote(text: string): string {
    "\"" + text + "\""
  }

  /** The non-empty records of an archive, in the order 今日习得, 逻辑突破, 改进点. */
  function FilledRecords(r: Records): seq<string> {
    (if r.learned != "" then [r.learned] else [])
    + (if r.breakthrough != "" then [r.breakthrough] else [])
    + (if r.improvement != "" then [r.improvement] else [])
  }

  /** `allRecords`: the filled records of the days that hold an archive, day by day. */
  function WeekRecords(s: Store, keys: seq<string>): seq<string> {
    if keys == [] then []
    else
      var k := keys[|keys| - 1];
      WeekRecords(s, keys[..|keys| - 1]) + (if Has(s, k) then FilledRecords(s.vals[k].records) else [])
  }

  /** The week has no record text exactly when no day holding an archive has a filled
      record. */
  lemma {:induction false} WeekRecordsEmpty(s: Store, keys: seq<string>)
    ensures WeekRecords(s, keys) == [] <==>
      forall i :: 0 <= i < |keys| && Has(s, keys[i]) ==> FilledRecords(s.vals[keys[i]].records) == []
    decreases |keys|
  {
    if keys != [] {
      var front := keys[..|keys| - 1];
      WeekRecordsEmpty(s, front);
      assert forall i :: 0 <= i < |front| ==> front[i] == keys[i];
    }
  }

  /** Component C: the first record text of the week, quoted, or the quoted default. */
  method InspiringLine(s: Store, keys: seq<string>) returns (line: string)
    requires |keys| == 7
    ensures line == if WeekRecords(s, keys) != [] then Quote(WeekRecords(s, keys)[0]) else Quote(DefaultQuote)
  {
    var all: seq<string> := [];
    var i := 0;
    while i < 7
      invariant 0 <= i <= 7
      invariant all == WeekRecords(s, keys[..i])
    {
      assert keys[..i + 1][..i] == keys[..i];
      var k := keys[i];
      if Has(s, k) {
        var r := s.vals[k].records;
        if r.learned != "" {
          all := all + [r.learned];
        }
        if r.breakthrough != "" {
          all := all + [r.breakthrough];
        }
        if r.improvement != "" {
          all := all + [r.improvement];
        }
      }
      i := i + 1;
    }
    assert keys[..7] == keys;
    if |all| > 0 {
      line := Quote(all[0]);
    } else {
      line := Quote(DefaultQuote);
    }
  }
}
