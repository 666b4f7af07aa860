/** The garden page of `src/pages/GardenPage.tsx`: loading the archives, the state of a day
    of the month, the card shown for it, the mood categories, and the manual save of a card. */
module Garden {
  import opened Strings
  import opened Dates
  import opened ArchiveStore
  import opened Storage

  /** The colour families of a mood: the four named ones, and the default green. */
  datatype Category = Positive | Anxious | Calm | Tired | Other

  /** The order in which the `if`/`else if` chain tests the categories. */
  function Rank(c: Category): nat {
    match c
    case Positive => 0
    case Anxious => 1
    case Calm => 2
    case Tired => 3
    case Other => 4
  }

  /** The mood contains one of the two words of a named category. */
  predicate Matches(mood: string, c: Category) {
    match c
    case Positive => Contains(mood, "积极") || Contains(mood, "开心")
    case Anxious => Contains(mood, "焦虑") || Contains(mood, "压力")
    case Calm => Contains(mood, "平静") || Contains(mood, "专注")
    case Tired => Contains(mood, "疲惫") || Contains(mood, "一般")
    case Other => false
  }

  /** The mood chain used for colours and counts: the first category in the fixed order whose
      words the mood contains, and `Other` when there is none. */
  function CategoryOf(mood: string): (c: Category)
    ensures c != Other ==> Matches(mood, c)
    ensures forall d :: Rank(d) < Rank(c) ==> !Matches(mood, d)
  {
    if Matches(mood, Positive) then Positive
    else if Matches(mood, Anxious) then Anxious
    else if Matches(mood, Calm) then Calm
    else if Matches(mood, Tired) then Tired
    else Other
  }

  /** An absent (or empty) mood gets the default colour. */
  lemma EmptyMoodIsOther()
    ensures CategoryOf("") == Other
  {
    assert !Contains("", "积极") && !Contains("", "开心");
    assert !Contains("", "焦虑") && !Contains("", "压力");
    assert !Contains("", "平静") && !Contains("", "专注");
    assert !Contains("", "疲惫") && !Contains("", "一般");
  }

  /** Adding words never moves a mood to a later category: the category of `a + b` is at
      least as early as that of `a`. */
  lemma CategoryOfExtended(a: string, b: string)
    ensures Rank(CategoryOf(a + b)) <= Rank(CategoryOf(a))
  {
    var c := CategoryOf(a);
    if c != Other {
      match c {
        case Positive =>
          ContainsInConcat(a, b, "积极");
          ContainsInConcat(a, b, "开心");
        case Anxious =>
          ContainsInConcat(a, b, "焦虑");
          ContainsInConcat(a, b, "压力");
        case Calm =>
          ContainsInConcat(a, b, "平静");
          ContainsInConcat(a, b, "专注");
        case Tired =>
          ContainsInConcat(a, b, "疲惫");
          ContainsInConcat(a, b, "一般");
      }
      assert Matches(a + b, c);
    }
  }

  /** `loadData`'s test: a truthy value with a truthy `date`, `mood` or `keywords`. */
  predicate Displayable(k: string, e: Entry) {
    e.Archive? && (e.date != "" || e.mood != "" || e.keywords.Some?)
  }

  /** The page's `archives` state holds archive objects only. */
  predicate AllArchives(archives: seq<Entry>) {
    forall i :: 0 <= i < |archives| ==> archives[i].Archive?
  }

  /** The loaded list is the displayable entries of the map, in key order. */
  lemma {:induction false} LoadedAreArchives(s: Store)
    requires Wf(s)
    ensures AllArchives(Values(Restrict(s, Displayable)))
  {
    var r := Restrict(s, Displayable);
    forall i | 0 <= i < |r.keys|
      ensures r.vals[r.keys[i]].Archive?
    {
      assert r.keys[i] in r.vals;
      assert Displayable(r.keys[i], s.vals[r.keys[i]]);
    }
  }

  /** `archives.find(a => a.date === key)`: the first loaded archive dated `key`. */
  function FindByDate(archives: seq<Entry>, key: string): (r: Option<Entry>)
    requires AllArchives(archives)
    ensures r.None? <==> forall i :: 0 <= i < |archives| ==> archives[i].date != key
    ensures r.Some? ==> exists i :: 0 <= i < |archives| && archives[i] == r.value && archives[i].date == key
                         && forall j :: 0 <= j < i ==> archives[j].date != key
  {
    if archives == [] then None
    else if archives[0].date == key then Some(archives[0])
    else
      var r := FindByDate(archives[1..], key);
      assert forall i :: 1 <= i < |archives| ==> archives[i] == archives[1..][i - 1];
      if r.Some? then
        assert exists i :: 0 <= i < |archives| && archives[i] == r.value && archives[i].date == key
                           && forall j :: 0 <= j < i ==> archives[j].date != key by {
          var i :| 0 <= i < |archives[1..]| && archives[1..][i] == r.value && archives[1..][i].date == key
                   && forall j :: 0 <= j < i ==> archives[1..][j].date != key;
          assert forall j :: 1 <= j < i + 1 ==> archives[j] == archives[1..][j - 1];
        }
        r
      else r
  }

  /** The local calendar date: year, 1-based month, day of the month. */
  datatype Today = Today(year: nat, month: nat, day: nat)

  predicate ValidToday(t: Today) {
    ValidYear(t.year) && 1 <= t.month <= 12 && 1 <= t.day <= DaysInMonth(t.year, t.month)
  }

  /** A cell of this month's calendar: a 0-based day index within the month. */
  predicate InMonth(t: Today, dayIndex: nat) {
    ValidToday(t) && dayIndex < DaysInMonth(t.year, t.month)
  }

  /** The key of a cell: `Date.UTC(year, month, dayIndex + 1)` written as `YYYY-MM-DD`. */
  function DayKey(t: Today, dayIndex: nat): (k: string)
    requires InMonth(t, dayIndex)
    ensures WellFormedDateKey(k)
  {
    FormatDateKey(t.year, t.month, dayIndex + 1)
  }

  /** `targetDate > todayUTC`: both are UTC midnights in the same month, so the cell is in the
      future exactly when its day number is larger than today's. */
  predicate IsFuture(t: Today, dayIndex: nat) {
    dayIndex + 1 > t.day
  }

  /** The three states of a day. */
  datatype DayState = Future | Archived(archive: Entry) | Unrecorded

  /** `getArchiveForDay`, in the order the cell rendering and the click test them: the future
      check comes first, then the archive lookup by `date`. */
  function Classify(archives: seq<Entry>, t: Today, dayIndex: nat): (s: DayState)
    requires AllArchives(archives) && InMonth(t, dayIndex)
    ensures s.Future? <==> IsFuture(t, dayIndex)
    ensures s.Unrecorded? <==>
      !IsFuture(t, dayIndex) && forall i :: 0 <= i < |archives| ==> archives[i].date != DayKey(t, dayIndex)
    ensures s.Archived? ==> s.archive.Archive? && s.archive.date == DayKey(t, dayIndex) && s.archive in archives
  {
    if IsFuture(t, dayIndex) then Future
    else match FindByDate(archives, DayKey(t, dayIndex))
      case Some(a) => Archived(a)
      case None => Unrecorded
  }

  /** The content of the growth card. */
  datatype Card = Card(title: string, mood: string, keywords: Option<seq<string>>, summary: seq<string>,
                       messages: Option<seq<Message>>)

  const PlaceholderTitle: string := "这一天，你忙于奔跑，忘了给灵魂留下回声。"

  /** The card of a day without an archive: no mood, no keywords, three fixed lines. */
  const PlaceholderCard: Card :=
    Card(PlaceholderTitle, "", Some([]), ["还没有今天的记录", "点击对话页面开始记录", "让每一天都有成长痕迹"], None)

  /** The card of an archived day: its mood as title, its keywords, its records in the order
      今日习得, 逻辑突破, 改进点, and its transcript. */
  function ArchiveCard(a: Entry): Card
    requires a.Archive?
  {
    Card(a.mood, a.mood, a.keywords, [a.records.learned, a.records.breakthrough, a.records.improvement], a.messages)
  }

  /** `getGrowthCardContent`: nothing for a future day, the card of the first archive dated that
      day, or the placeholder. */
  function CardContent(archives: seq<Entry>, t: Today, dayIndex: nat): (c: Option<Card>)
    requires AllArchives(archives) && InMonth(t, dayIndex)
    ensures c.None? <==> IsFuture(t, dayIndex)
  {
    match Classify(archives, t, dayIndex)
    case Future => None
    case Archived(a) => Some(ArchiveCard(a))
    case Unrecorded => Some(PlaceholderCard)
  }

  /** A future day has no card whatever the archives hold; a past or present day always has
      one, taken from the first archive with that date or else the placeholder. */
  lemma CardContentByDay(archives: seq<Entry>, t: Today, dayIndex: nat)
    requires AllArchives(archives) && InMonth(t, dayIndex)
    ensures IsFuture(t, dayIndex) <==> CardContent(archives, t, dayIndex).None?
    ensures IsFuture(t, dayIndex) ==> forall other :: AllArchives(other) ==> CardContent(other, t, dayIndex) == None
    ensures !IsFuture(t, dayIndex) && (forall i :: 0 <= i < |archives| ==> archives[i].date != DayKey(t, dayIndex)) ==>
      CardContent(archives, t, dayIndex) == Some(PlaceholderCard)
    ensures !IsFuture(t, dayIndex) ==> forall i ::
      (0 <= i < |archives| && archives[i].date == DayKey(t, dayIndex)
       && (forall j :: 0 <= j < i ==> archives[j].date != DayKey(t, dayIndex))) ==>
      CardContent(archives, t, dayIndex) == Some(ArchiveCard(archives[i]))
  {
    if !IsFuture(t, dayIndex) {
      var key := DayKey(t, dayIndex);
      forall i | 0 <= i < |archives| && archives[i].date == key && (forall j :: 0 <= j < i ==> archives[j].date != key)
        ensures CardContent(archives, t, dayIndex) == Some(ArchiveCard(archives[i]))
      {
        var r := FindByDate(archives, key);
        var i' :| 0 <= i' < |archives| && archives[i'] == r.value && archives[i'].date == key
                  && forall j :: 0 <= j < i' ==> archives[j].date != key;
        assert i' == i;
      }
    }
  }

  /** What the manual save did. */
  datatype SaveOutcome =
    | SaveCrashed          // the archive map does not parse; the handler throws
    | AlreadyRecorded
    | NoContent
    | PlaceholderOnly
    | Written(archive: Entry)

  /** `summary?.[i] || ''` */
  function SlotAt(summary: seq<string>, i: nat): string {
    if i < |summary| then summary[i] else ""
  }

  /** The placeholder test: the placeholder title with no keywords. */
  predicate IsPlaceholder(c: Card) {
    c.title == PlaceholderTitle && (c.keywords.None? || c.keywords.value == [])
  }

  /** The record `handleSaveCard` builds from a card: the mood, or "平静" when it is empty; the
      keywords, or none; the three summary lines as records. */
  function CardArchive(key: string, c: Card): Entry {
    Archive(key, if c.mood != "" then c.mood else "平静", Some(if c.keywords.Some? then c.keywords.value else []),
            Records(SlotAt(c.summary, 0), SlotAt(c.summary, 1), SlotAt(c.summary, 2)), None, "", false)
  }

  /** Saving the card of an archive dated `key` writes back its date, mood, keywords and
      records; its transcript, advice and silent mark are not carried over. */
  lemma CardArchiveOfArchive(key: string, a: Entry)
    requires a.Archive? && a.date == key && a.mood != ""
    ensures CardArchive(key, ArchiveCard(a)) ==
      a.(keywords := Some(if a.keywords.Some? then a.keywords.value else []), messages := None, advice := "", isSilent := false)
  {
  }

  datatype SaveStep = SaveStep(storage: Persisted, outcome: SaveOutcome)

  /** `handleSaveCard` for the card `content` of the day `key`. It never overwrites: a key that
      holds an archive, a missing card and the placeholder card write nothing; otherwise exactly
      that one key is added. */
  function SaveCardStep(p: Persisted, key: string, content: Option<Card>): (r: SaveStep)
    requires ValidPersisted(p)
    ensures ValidPersisted(r.storage)
    ensures r.outcome == SaveCrashed <==> p.archives == Unparsable
    ensures r.outcome.Written? <==>
      p.archives != Unparsable && !HasSlot(p.archives, key) && content.Some? && !IsPlaceholder(content.value)
    ensures !r.outcome.Written? ==> r.storage == p
    ensures r.outcome.Written? ==>
      && r.outcome.archive == CardArchive(key, content.value)
      && LookupSlot(r.storage.archives, key) == Some(r.outcome.archive)
      && (forall k :: k != key ==> LookupSlot(r.storage.archives, k) == LookupSlot(p.archives, k))
      && r.storage == p.(archives := r.storage.archives)
    ensures forall k :: HasSlot(p.archives, k) ==> LookupSlot(r.storage.archives, k) == LookupSlot(p.archives, k)
  {
    match Parse(p.archives)
    case None => SaveStep(p, SaveCrashed)
    case Some(s) =>
      if Has(s, key) then SaveStep(p, AlreadyRecorded)
      else if content.None? then SaveStep(p, NoContent)
      else if IsPlaceholder(content.value) then SaveStep(p, PlaceholderOnly)
      else
        var a := CardArchive(key, content.value);
        SaveStep(p.(archives := Stored(Put(s, key, a))), Written(a))
  }

  /** Saving twice is saving once: after a write the key holds an archive, so a second save of
      the same day writes nothing. */
  lemma SaveCardOnce(p: Persisted, key: string, content: Option<Card>)
    requires ValidPersisted(p)
    ensures var r1 := SaveCardStep(p, key, content);
            var r2 := SaveCardStep(r1.storage, key, content);
            r1.outcome.Written? ==> r2.outcome == AlreadyRecorded && r2.storage == r1.storage
  {
  }

  /** The page component: the loaded archives, the selected cell, whether the card is open,
      and the browser storage. */
  class GardenPage {
    const storage: LocalStorage
    var archives: seq<Entry>
    var selectedDate: nat
    var showGrowthCard: bool

    ghost predicate Valid()
      reads this, storage
    {
      storage.Valid() && AllArchives(archives)
    }

    /** The first render: nothing loaded, the sixth cell selected, no card open. */
    constructor (ls: LocalStorage)
      requires ls.Valid()
      ensures storage == ls && Valid()
      ensures archives == [] && selectedDate == 5 && !showGrowthCard
      ensures storage.Value() == old(ls.Value())
    {
      storage := ls;
      archives := [];
      selectedDate := 5;
      showGrowthCard := false;
    }

    /** `loadData`: keeps exactly the displayable entries, unchanged and in key order, shows
        them, and writes them to the backup slot. A map that does not parse throws before
        anything changes. */
    method LoadData() returns (ok: bool)
      requires Valid()
      modifies this, storage
      ensures Valid()
      ensures ok <==> old(storage.archives) != Unparsable
      ensures !ok ==> unchanged(this, storage)
      ensures ok ==>
        var kept := Restrict(Parse(old(storage.archives)).value, Displayable);
        && archives == Values(kept)
        && storage.Value() == old(storage.Value()).(backup := Some(kept))
        && selectedDate == old(selectedDate) && showGrowthCard == old(showGrowthCard)
    {
      var parsed := Parse(storage.archives);
      if parsed.None? {
        return false;
      }
      var kept := Filter(parsed.value, Displayable);
      LoadedAreArchives(parsed.value);
      archives := Values(kept);
      storage.backup := Some(kept);
      ok := true;
    }

    /** `handlePixelClick`: the cell is selected, and the card opens unless the day is in the
        future. */
    method PixelClick(t: Today, dayIndex: nat)
      requires Valid() && InMonth(t, dayIndex)
      modifies this
      ensures Valid()
      ensures selectedDate == dayIndex && archives == old(archives)
      ensures showGrowthCard == (old(showGrowthCard) || Classify(archives, t, dayIndex) != Future)
    {
      selectedDate := dayIndex;
      var state := Classify(archives, t, dayIndex);
      if state != Future {
        showGrowthCard := true;
      }
    }

    /** `handleSaveCard` for the selected cell, with the card the page shows for it; a written
        card also closes the card view (the page reload that follows is not modelled). */
    method SaveCard(t: Today) returns (outcome: SaveOutcome)
      requires Valid() && InMonth(t, selectedDate)
      modifies this, storage
      ensures Valid()
      ensures archives == old(archives) && selectedDate == old(selectedDate)
      ensures var r := SaveCardStep(old(storage.Value()), DayKey(t, selectedDate), CardContent(archives, t, selectedDate));
              storage.Value() == r.storage && outcome == r.outcome
      ensures showGrowthCard == (old(showGrowthCard) && !outcome.Written?)
    {
      var key := DayKey(t, selectedDate);
      var content := CardContent(archives, t, selectedDate);
      var parsed := Parse(storage.archives);
      if parsed.None? {
        return SaveCrashed;
      }
      var all := parsed.value;
      if Has(all, key) {
        return AlreadyRecorded;
      }
      if content.None? {
        return NoContent;
      }
      if IsPlaceholder(content.value) {
        return PlaceholderOnly;
      }
      var a := CardArchive(key, content.value);
      storage.archives := Stored(Put(all, key, a));
      outcome := Written(a);
      showGrowthCard := false;
    }
  }
}
