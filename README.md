# Echo growth archive: the archive store, modelled in Dafny

Echo is a browser journal. The user chats with a mentor model on the chat page. At the end of a
day a summary of the conversation (mood, keywords, three records, advice) is stored in
`localStorage` under the key `echo_archives`. That slot holds a JSON object from a `YYYY-MM-DD`
date key to an archive record. The garden page reads the same object back and shows:

- a calendar of the month;
- a growth card for each day;
- monthly statistics;
- a weekly report.

This project models the code that reads and writes that store, and proves what it does.

- **Startup cleanup** (`src/App.tsx`). When the application starts it removes the whole slot if
  any key contains "0", "1" or "2024". The model proves that every well-formed date key contains
  "0" or "1". So any stored archive map is wiped at every start (`Startup.WellFormedStoreIsWiped`).
- **Chat page** (`src/pages/ChatPage.tsx`):
  - the day rollover on mount, which silently archives yesterday's unarchived session;
  - the session save;
  - `handleSend`, with the 20-message history window of `getChatResponse`;
  - the two card handlers, which never overwrite an existing archive.
- **Summarizer** (`src/lib/aiService.ts`). It removes the markdown fences around the reply, then
  checks the reply's shape. In `summarizeToArchive` the `catch` block's fallback names `today`,
  a `const` declared inside the `try` block. The fallback therefore raises a `ReferenceError`
  instead of returning, and every failure rejects. The model follows the code here.
- **Garden page** (`src/pages/GardenPage.tsx`):
  - the load filter and the backup slot;
  - the three states of a calendar day (future, archived, unrecorded) and the card content;
  - the mood categories;
  - the manual card save;
  - `getMonthlyStats` (recorded days, dominant mood, top three keywords);
  - the weekly chart, counts and quote.
- **Global state manager** (`src/utils/globalStateManager.ts`). A singleton registry that drops
  keys starting with "2024-" on every load, caches the archive list and pushes it to its
  listeners.

### How the browser is represented

- A JavaScript object is a `Store`: its ordered, distinct keys together with a map. Order
  matters, because the pages read archives back in key order.
- A falsy string field (absent or empty) is the empty string.
- `keywords` is optional, because an empty array is truthy.
- A stored value may be `null`.
- `localStorage` is the class `Storage.LocalStorage`:
  - `echo_archives` is a `Slot`: absent, unparsable, or a store;
  - `echo_archives_backup` is the backup slot;
  - `last_conversation_date` is the last date;
  - `chat_history_<date>` holds the saved sessions.
- The pages and the manager are classes whose methods update their fields and that storage.
- What a page handler does is stated as a pure step function on the persisted value. The
  handler's method is proved equal to that function, and the lemmas are proved about the
  function.

### Inputs the model takes as parameters

- The model's reply to a request (`server`).
- `JSON.parse` of the reply text (`parse`).
- Whether an API key is configured.
- The current date.
- The seven day keys of the week.

## Model

| member | source | states |
|---|---|---|
| ArchiveStore.Put | src/pages/ChatPage.tsx:414 | assigning a key makes it read back the new value, every other key reads as before, existing keys keep their order and a new key goes last |
| ArchiveStore.KeepKeys | src/pages/GardenPage.tsx:35-40 | the kept keys are exactly the accepted keys, and stay distinct |
| ArchiveStore.KeepKeysConcat | src/pages/GardenPage.tsx:35-40 | keys are kept one by one, so the kept keys of two lists are those of the first followed by those of the second: the original order is kept |
| ArchiveStore.Restrict | src/pages/GardenPage.tsx:34-40 | the copied object holds exactly the accepted entries with their values unchanged, its keys are the kept keys in their original order, and it is a well-formed object |
| ArchiveStore.Filter | src/pages/GardenPage.tsx:34-40 | the `forEach` copy loop builds exactly the restricted object |
| Storage.LocalStorage.Clear | src/pages/ChatPage.tsx:919-922 | clearing storage empties every slot, archives included |
| Strings.Trim | src/pages/ChatPage.tsx:279 | `trim()` yields a trimmed infix of the input with only whitespace cut on either side |
| Strings.TrimEmptyIffBlank | src/pages/ChatPage.tsx:279 | `trim() === ''` holds exactly when the input is all whitespace |
| Dates.DaysInMonth | src/pages/GardenPage.tsx:414 | a month has between 28 and 31 days |
| Dates.FormatDateKey | src/pages/GardenPage.tsx:418-419 | a date written with `toISOString().split('T')[0]` is always a well-formed `YYYY-MM-DD` key |
| Startup.HasInvalidData | src/App.tsx:24-28 | true exactly when some key contains "0", "1" or "2024" |
| Startup.YearCheckSubsumed | src/App.tsx:25-27 | a key containing "2024" contains "0", so the year test adds nothing |
| Startup.WellFormedKeyIsFlagged | src/App.tsx:23-28 | every well-formed date key is flagged as invalid (its month starts with 0 or 1) |
| Startup.FormattedKeyIsFlagged | src/App.tsx:23-28 | every key the application itself writes is flagged |
| Startup.CleanedSlot | src/App.tsx:19-38 | the slot is removed exactly when it parses and has a flagged key; otherwise it is left as it is (a parse error is caught) |
| Startup.WellFormedStoreIsWiped | src/App.tsx:30-35 | a map holding even one well-formed date key is removed whole |
| Startup.CleanupOnStartup | src/App.tsx:18-39 | only `echo_archives` changes, and it becomes the cleaned slot |
| Summarizer.TranscriptConcat | src/lib/aiService.ts:121 | the transcript of two conversations is the two transcripts joined by a newline |
| Summarizer.Transcript | src/lib/aiService.ts:121 | the transcript is empty exactly when there are no messages |
| Summarizer.StripFences | src/lib/aiService.ts:196-203 | the text handed to `JSON.parse` is trimmed, and text not starting with a fence is only trimmed |
| Summarizer.FencePrefix | src/lib/aiService.ts:196-198 | a reply starting with the tagged fence also starts with the plain one, so the tagged test must come first |
| Summarizer.DropFenceLine | src/lib/aiService.ts:197 | the end-anchored pattern drops a closing fence on its own line and keeps the newline before it |
| Summarizer.DropFenceInline | src/lib/aiService.ts:197 | the end-anchored pattern drops a closing fence right after the JSON |
| Summarizer.StripTaggedBlock | src/lib/aiService.ts:196-203 | a trimmed JSON text wrapped in a "```json" block comes out unchanged |
| Summarizer.StripPlainBlock | src/lib/aiService.ts:198-203 | a trimmed JSON text wrapped in a "```" block comes out unchanged |
| Summarizer.StripInlineBlock | src/lib/aiService.ts:196-203 | a "```json" block written on one line comes out unchanged |
| Summarizer.StripBare | src/lib/aiService.ts:202-203 | a trimmed text that does not start with a fence comes out unchanged |
| Summarizer.SummarizeToArchive | src/lib/aiService.ts:110-240 | a summary is produced exactly when the key exists, the request succeeds and the stripped reply parses to the accepted shape; it then carries the parsed fields; every other case rejects |
| Summarizer.GenerateReflection | src/lib/aiService.ts:26-103 | the result differs from the fixed default only on the accepted path, and on that path it is the parsed reflection |
| Chat.ContainsAny | src/pages/ChatPage.tsx:304 | true exactly when the text contains one of the markers |
| Chat.IsEnding | src/pages/ChatPage.tsx:304 | a message is an ending exactly when it contains one of the eight markers |
| Chat.EndingSurvivesConcat | src/pages/ChatPage.tsx:304 | an ending message stays one whatever is written around it |
| Chat.LimitHistory | src/pages/ChatPage.tsx:20 | the history sent is the last min(n, 20) messages, as a suffix |
| Chat.ChatRequestShape | src/pages/ChatPage.tsx:20-108 | the request's conversation is the last min(n, 20) history messages followed by the user's message |
| Chat.ChatReply | src/pages/ChatPage.tsx:8-124 | without a key the configuration apology whatever the server does; with a key the server's text, or the confused apology when the request fails |
| Chat.Decide | src/pages/ChatPage.tsx:279-304 | blank input is ignored; non-blank input containing "生成卡片" is a card request; otherwise it is a conversation turn, an ending one exactly when it contains an ending marker |
| Chat.ConverseAppends | src/pages/ChatPage.tsx:311-354 | with numbered messages a turn appends the user's message and the reply with the next two ids |
| Chat.SendKeepsNumbering | src/pages/ChatPage.tsx:278-372 | sending keeps message ids equal to positions; a turn appends the message and the reply; a card request appends one message |
| Chat.ReplaceContent | src/pages/ChatPage.tsx:348-352 | ids, roles and length are kept; exactly the messages with the id get the new text |
| Chat.Converse | src/pages/ChatPage.tsx:311-354 | a turn adds two messages, the user's with the next id and the reply with the one after |
| Chat.AfterSend | src/pages/ChatPage.tsx:278-372 | the kind is decided from the input; blank input changes nothing; a request is sent exactly for a conversation turn, which is counted; the button shows after a card request or an ending message and stays shown |
| Chat.SilentTranscript | src/pages/ChatPage.tsx:185-188 | the silent transcript is never longer than the saved session |
| Chat.SilentTranscriptKeepsAll | src/pages/ChatPage.tsx:185-188 | messages without id 1 all reach the transcript, as role and content |
| Chat.SilentTranscriptDropsGreeting | src/pages/ChatPage.tsx:185-188 | for a session numbered by the page, the transcript is everything after the greeting |
| Chat.SilentArchive | src/pages/ChatPage.tsx:185-202 | the silent archive is dated the previous day, marked silent, has placeholder mood and keyword, and holds the silent transcript |
| Chat.Capture | src/pages/ChatPage.tsx:178-212 | the previous day gets the silent archive exactly when its session was saved and it has no archive; no other key changes; no archive is replaced |
| Chat.AfterMount | src/pages/ChatPage.tsx:166-247 | the mount completes exactly when the archive map parses; no archive is replaced; on a new day the view restarts, yesterday's session is removed, and the archive map gains the silent archive if and only if yesterday is captured; on the same day only the messages (today's saved session, if any) and, when it completes, the archived-today flag change in the view; the last date becomes today |
| Chat.MountTwiceSameDay | src/pages/ChatPage.tsx:166-247 | mounting again on the same day changes neither the archives nor the saved sessions |
| Chat.GenerateCardStep | src/pages/ChatPage.tsx:374-465 | an existing archive for today is shown, not regenerated; otherwise a produced summary is stored under today, with the date forced and the session attached, and the last date becomes today; a failure stores nothing |
| Chat.CompleteArchive | src/pages/ChatPage.tsx:399-403 | the stored card is the summary with its date forced to today and the conversation attached, not silent |
| Storage.WriteSlot | src/pages/ChatPage.tsx:414-420 | writing an archive under a date makes that date hold it and leaves every other date as it was |
| Chat.GenerateCardNeverOverwrites | src/pages/ChatPage.tsx:377-420 | generating a card never replaces an existing archive |
| Chat.SaveToArchiveStep | src/pages/ChatPage.tsx:467-523 | a produced summary is stored under today as returned (overwriting); a failure or an unparsable map stores nothing |
| Chat.ChatPage.Mount | src/pages/ChatPage.tsx:166-247 | the page and storage become what the mount step says |
| Chat.ChatPage.SaveSession | src/pages/ChatPage.tsx:271-276 | the session is saved under today once it has more than the greeting, and nothing else changes |
| Chat.ChatPage.Send | src/pages/ChatPage.tsx:278-372 | the view becomes what the send step says, then the session is saved; blank input changes nothing |
| Chat.ChatPage.Respond | src/pages/ChatPage.tsx:278-360 | for non-blank input the message list, counter and button become what the send step gives for that kind, and the request sent is the one it names |
| Chat.ChatPage.GenerateCard | src/pages/ChatPage.tsx:374-465 | the view and storage become what the card step says |
| Chat.ChatPage.SaveToArchive | src/pages/ChatPage.tsx:467-523 | storage becomes what the save step says, and `saved` reports a write |
| Garden.CategoryOf | src/pages/GardenPage.tsx:312-325 | a named category's words occur in the mood, and no earlier category's words do |
| Garden.EmptyMoodIsOther | src/pages/GardenPage.tsx:313 | a missing mood gets the default colour |
| Garden.CategoryOfExtended | src/pages/GardenPage.tsx:315-323 | adding text to a mood never moves it to a later category |
| Garden.LoadedAreArchives | src/pages/GardenPage.tsx:34-45 | the loaded list holds archive objects only |
| Garden.FindByDate | src/pages/GardenPage.tsx:193 | `find` returns nothing exactly when no archive has the date, and otherwise the first archive with it |
| Garden.Classify | src/pages/GardenPage.tsx:217-254 | a day is future exactly when it is after today, unrecorded exactly when it is not future and no archive has its date, and otherwise holds a loaded archive with its date |
| Garden.DayKey | src/pages/GardenPage.tsx:187-192 | a calendar cell's key is a well-formed date key |
| Garden.CardContentByDay | src/pages/GardenPage.tsx:256-309 | a future day has no card whatever the archives hold; a past or present day shows the card of the first archive with its date, or else the placeholder |
| Garden.CardContent | src/pages/GardenPage.tsx:256-309 | a day has no card exactly when it is in the future |
| Garden.CardArchiveOfArchive | src/pages/GardenPage.tsx:150-160 | saving an archived day's card writes back its date, mood, keywords and records |
| Garden.SaveCardStep | src/pages/GardenPage.tsx:122-174 | a write happens exactly when the map parses, the day has no archive, and the card is real (not the placeholder); it adds that one key; nothing is overwritten |
| Garden.SaveCardOnce | src/pages/GardenPage.tsx:131-135 | after a write a second save of the same day writes nothing |
| Garden.GardenPage.LoadData | src/pages/GardenPage.tsx:27-49 | the page shows exactly the displayable entries in key order and backs them up; an unparsable map changes nothing |
| Garden.GardenPage.PixelClick | src/pages/GardenPage.tsx:182-215 | the cell is selected, and the card opens unless the day is in the future |
| Garden.GardenPage.SaveCard | src/pages/GardenPage.tsx:122-174 | storage becomes what the save step says, and a write closes the card |
| GardenStats.MonthDates | src/pages/GardenPage.tsx:414-421 | the loop yields the keys of every day of the month, in order |
| GardenStats.MonthKeysDistinct | src/pages/GardenPage.tsx:417-421 | no two days of a month share a key |
| GardenStats.LastByDate | src/pages/GardenPage.tsx:424-427 | each key of the map by date holds an archive of that date |
| GardenStats.LastByDateKeys | src/pages/GardenPage.tsx:424-427 | the keys of the map by date are exactly the dates of the loaded archives |
| GardenStats.LastByDateIsLast | src/pages/GardenPage.tsx:424-427 | the archive under a date is the last loaded one with that date |
| GardenStats.IndexByDate | src/pages/GardenPage.tsx:424-427 | the `forEach` builds exactly that map |
| GardenStats.KeysIn | src/pages/GardenPage.tsx:430-431 | the recorded dates are exactly the month's dates with an archive, and there are no more of them than days |
| GardenStats.KeysInDistinct | src/pages/GardenPage.tsx:430-431 | filtering dates without repeats gives dates without repeats |
| GardenStats.KeysInCount | src/pages/GardenPage.tsx:430-433 | over dates without repeats, the number of filtered dates is the number of listed dates that have an archive |
| ArchiveStore.DistinctCard | src/pages/GardenPage.tsx:433 | a list without repeats is as long as the set of its elements |
| GardenStats.RecordedDates | src/pages/GardenPage.tsx:430 | the `filter` yields exactly the recorded dates |
| GardenStats.BumpMood | src/pages/GardenPage.tsx:448-456 | one record raises its category's counter by one; a mood of no category changes nothing |
| GardenStats.TallyMoodsCount | src/pages/GardenPage.tsx:434-456 | each counter equals the number of recorded moods in its category |
| GardenStats.TallyMoodsTotal | src/pages/GardenPage.tsx:444-456 | the counters add up to the number of records minus those of no category |
| GardenStats.BumpKeywordCount | src/pages/GardenPage.tsx:461 | counting a keyword raises its count by one and leaves every other count alone |
| GardenStats.BumpKeywordNamed | src/pages/GardenPage.tsx:461 | counting a keyword adds its name if it was missing and no other name |
| GardenStats.BumpKeywordDistinct | src/pages/GardenPage.tsx:461 | counting a keyword keeps each keyword under a single entry |
| GardenStats.KeywordTallySpec | src/pages/GardenPage.tsx:442-463 | the tally names each keyword once, with its number of occurrences |
| GardenStats.InsertByCount | src/pages/GardenPage.tsx:478-479 | inserting adds exactly one entry |
| GardenStats.InsertByCountSorted | src/pages/GardenPage.tsx:479 | inserting into a list sorted by count keeps it sorted |
| GardenStats.SortByCount | src/pages/GardenPage.tsx:478-479 | the sort is a permutation and is sorted by decreasing count |
| GardenStats.SortedEntryCounts | src/pages/GardenPage.tsx:478-479 | every sorted entry is a keyword with its true count |
| GardenStats.SortedEntryOf | src/pages/GardenPage.tsx:478-479 | every keyword has an entry in the sorted list |
| GardenStats.TopKeywordsFromStream | src/pages/GardenPage.tsx:477-481 | at most three keywords are taken, all of them recorded keywords |
| GardenStats.TopKeywords | src/pages/GardenPage.tsx:477-481 | the first min(3, n) names of the tally sorted by count, in that order |
| GardenStats.TopKeywordsOrdered | src/pages/GardenPage.tsx:477-481 | the top keywords come in order of non-increasing frequency |
| GardenStats.TopKeywordsDominate | src/pages/GardenPage.tsx:477-481 | no keyword left out occurs more often than one taken |
| GardenStats.TopKeywordsAllWhenFew | src/pages/GardenPage.tsx:480 | with fewer than three taken, every keyword is taken |
| GardenStats.DominantMood | src/pages/GardenPage.tsx:467-475 | the result is "平静专注" when every count is zero, otherwise the first category with the largest count |
| GardenStats.DominantUnique | src/pages/GardenPage.tsx:467-475 | that description determines the dominant mood |
| GardenStats.CountRecorded | src/pages/GardenPage.tsx:444-465 | the nested loops compute the mood counters and the keyword tally of the recorded dates |
| GardenStats.AddKeywords | src/pages/GardenPage.tsx:459-463 | the inner loop leaves the tally of the keywords seen so far followed by this record's keywords |
| GardenStats.GetMonthlyStats | src/pages/GardenPage.tsx:408-497 | the number of recorded days is the number of the month's dates that have an archive (at most the month's length); the dominant mood and top keywords are those of these records |
| GardenStats.WeekChart | src/pages/GardenPage.tsx:761-817 | each of the seven slots is the mood category of that day's archive, or empty |
| GardenStats.WeekCount | src/pages/GardenPage.tsx:834-849 | the count is the number of days of the week with an archive, at most seven |
| GardenStats.WeekKeywordCount | src/pages/GardenPage.tsx:865-880 | the count is the number of distinct keywords of the week |
| GardenStats.AddWords | src/pages/GardenPage.tsx:876-878 | adding one day's keywords to the set yields the set together with those keywords |
| GardenStats.WeekRecordsEmpty | src/pages/GardenPage.tsx:898-920 | the week has no record text exactly when no archived day has a filled record |
| GardenStats.InspiringLine | src/pages/GardenPage.tsx:898-927 | the quote is the first filled record of the week, in quotes, or else the quoted default line |
| StateManager.HasOldData | src/utils/globalStateManager.ts:30 | true exactly when some key starts with "2024-" |
| StateManager.LoadedPurgesOldKeys | src/utils/globalStateManager.ts:26-50 | a load yields nothing exactly when the slot does not parse; otherwise it keeps exactly the keys not starting with "2024-", with their values |
| StateManager.WrittenBackOnlyWhenOld | src/utils/globalStateManager.ts:31-43 | storage is written exactly when some key starts with "2024-", and then with the purged map |
| StateManager.Loaded | src/utils/globalStateManager.ts:26-50 | a load yields nothing exactly when the slot does not parse; a loaded map is well-formed and holds no "2024-" key |
| StateManager.WrittenBack | src/utils/globalStateManager.ts:31-43 | the slot is left as is or replaced by the loaded map, and it then parses to that map |
| StateManager.OldKeyIsFlagged | src/utils/globalStateManager.ts:30 | a key the manager purges is one the startup cleanup already flags |
| StateManager.PurgeAfterStartupIsNoOp | src/utils/globalStateManager.ts:29-50 | after the startup cleanup, a load writes nothing back |
| StateManager.Notifications | src/utils/globalStateManager.ts:89-97 | notification calls every listener in order with the same list |
| StateManager.Without | src/utils/globalStateManager.ts:84-86 | unsubscribing removes every registration of the listener and keeps every other registration, as many times as it occurred |
| StateManager.WithoutConcat | src/utils/globalStateManager.ts:85 | the filter works element by element, so the remaining listeners keep their order |
| StateManager.WithoutAbsent | src/utils/globalStateManager.ts:85 | unsubscribing a listener that is not registered leaves the list as it is, order included |
| StateManager.SubscribeThenUnsubscribe | src/utils/globalStateManager.ts:78-87 | unsubscribing right after a first subscription restores the list |
| StateManager.GlobalStateManager.constructor | src/utils/globalStateManager.ts:7-15 | a new manager starts with no listeners and loads at once |
| StateManager.GlobalStateManager.LoadFromStorage | src/utils/globalStateManager.ts:24-57 | an unparsable slot changes nothing and notifies no one; otherwise old keys are purged, the cache becomes the remaining values in key order, and every listener is notified |
| StateManager.GlobalStateManager.NotifyListeners | src/utils/globalStateManager.ts:89-97 | every listener is called in order with the cache; a throwing one does not stop the rest |
| StateManager.GlobalStateManager.Subscribe | src/utils/globalStateManager.ts:78-82 | the listener is appended and called once with the cache; its error reaches the caller |
| StateManager.GlobalStateManager.Unsubscribe | src/utils/globalStateManager.ts:84-86 | the listener list loses every registration of the listener |
| StateManager.GlobalStateManager.GetArchives | src/utils/globalStateManager.ts:74-76 | the cached list is returned as is |
| StateManager.GlobalStateManager.ForceRefresh | src/utils/globalStateManager.ts:99-104 | a refresh is one more load |
| StateManager.GlobalStateManager.UpdateArchives | src/utils/globalStateManager.ts:59-61 | an update reloads at once: an unparsable map changes neither cache nor deliveries; otherwise purge, write-back, cache update and notification of every listener |
| StateManager.Runtime.GetInstance | src/utils/globalStateManager.ts:17-22 | the first call creates a manager with no listeners, whose load writes back the purged map and sets the cache; later calls return that same manager and change nothing |
| StateManager.Runtime.GetInstanceTwice | src/utils/globalStateManager.ts:17-22 | two calls return the same manager |

## Left out

- Network and model calls are parameters: `server` for the reply and `parse` for `JSON.parse` of the reply text. The prompts, the request bodies, temperature and token limits are not modelled.
- `JSON.stringify` and the text form of stored values are not modelled. A slot holds the value its text decodes to, or is marked unparsable.
- Timers, events and page reloads are not modelled, because they only schedule the modelled operations:
  - the one-minute date check and its reload (src/pages/ChatPage.tsx:250-268);
  - the second, delayed archive write and the dispatched storage events (src/pages/ChatPage.tsx:422-445 and 485-508);
  - the garden's event listeners and its 5-second poll (src/pages/GardenPage.tsx:55-103);
  - the manager's storage listener and its 50 ms second load (src/utils/globalStateManager.ts:12-14 and 67-70);
  - the reload after a card save.
- Several tabs sharing one storage are not modelled; the model is a single thread.
- A saved chat message's `timestamp` is not modelled. An archived transcript holds role and content only.
- A stored archive without a `mood` or `records` field makes the source crash at `archive.mood.includes` and at `records.今日习得`. The model reads the missing field as empty instead.
- Integer-like keyword keys are not modelled. JavaScript enumerates them before other keys, so the model's first-seen order differs for them.
- GardenStats.SortByCount: only permutation and sortedness are stated. Stability is not stated, though the insertion sort that defines it is stable, as the source's sort is.
- The garden's `refreshData` (src/pages/GardenPage.tsx:107-116) is not modelled; it is a debugging reload.
- The weekly report takes its seven day keys as input. The local-time week arithmetic and the `MM.DD - MM.DD` range label are not modelled. The arithmetic can shift a key by one day near midnight UTC.
- An unparsable archive map makes the weekly panels throw while rendering. The weekly methods take a parsed map, so they do not model that throw.
- Years below 100 are not modelled: `Date.UTC` maps them to 19xx. The model requires years 100 to 9999.
- A selected cell outside the current month is not modelled. The initial selection is day 6, which every month has.
- Rendering, colour class names, icons, toasts and the loading flag are not modelled.
- `generateReflection` is modelled although nothing in the repository calls it. The same holds for `handleSaveToArchive`, which is not wired to the interface.
- The intended fallback record of `summarizeToArchive` (src/lib/aiService.ts:229-239) is not reachable as written, so no member produces it.
- GardenStats.WeekChart returns categories rather than colour classes. A mood of no category, and a missing mood, both map to `Other`.
- StateManager.GlobalStateManager.UpdateArchives: only the immediate reload is stated, not the delayed one.
- Chat.SilentArchive: the source's silent archive has no `advice` field; the model gives it an empty one.
- The `localStorage` availability probe on garden mount (src/pages/GardenPage.tsx:14-24) is not modelled.
- The debug export of the manager on `window` (src/utils/globalStateManager.ts:108-110) is not modelled.
