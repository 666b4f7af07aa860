/** The chat page of `src/pages/ChatPage.tsx`: the day rollover on mount, the session save,
    the send decision, and the two paths that write an archive for today. */
module Chat {
  import opened Strings
  import opened ArchiveStore
  import opened Storage
  import opened Summarizer

  const FirstGreeting: string := "今日感觉如何？\n有什么想记录或复盘的吗？"
  const NewDayGreeting: string := "新的一天，有什么想记录的吗？"
  const ThinkingText: string := "Echo 正在思考..."
  const Pending: string := "待补充"
  const SteadyProgress: string := "今日专注现有进度"
  const CardCommand: string := "生成卡片"
  const EndingMarkers: seq<string> := ["结束", "再见", "拜拜", "下次聊", "总结", "晚安", "睡了", "休息"]
  const HistoryWindow: nat := 20
  const NoKeyReply: string := "抱歉，系统配置有问题。"
  const ConfusedReply: string := "抱歉，我现在有点困惑，能再说一遍吗？"

  /** `markers.some(m => s.includes(m))` */
  function ContainsAny(s: string, markers: seq<string>): (b: bool)
    ensures b <==> exists i :: 0 <= i < |markers| && Contains(s, markers[i])
  {
    if markers == [] then false
    else if Contains(s, markers[0]) then true
    else
      var rest := ContainsAny(s, markers[1..]);
      assert rest ==> exists i :: 0 <= i < |markers| && Contains(s, markers[i]) by {
        if rest {
          var j :| 0 <= j < |markers[1..]| && Contains(s, markers[1..][j]);
          assert markers[1..][j] == markers[j + 1];
        }
      }
      assert (exists i :: 0 <= i < |markers| && Contains(s, markers[i])) ==> rest by {
        if exists i :: 0 <= i < |markers| && Contains(s, markers[i]) {
          var i :| 0 <= i < |markers| && Contains(s, markers[i]);
          assert i != 0;
          assert markers[1..][i - 1] == markers[i];
        }
      }
      rest
  }

  /** The ending intent of `handleSend`: the message contains one of the eight markers. */
  function IsEnding(msg: string): (b: bool)
    ensures b <==> exists i :: 0 <= i < |EndingMarkers| && Contains(msg, EndingMarkers[i])
  {
    ContainsAny(msg, EndingMarkers)
  }

  /** An ending message stays one whatever is written before or after it. */
  lemma EndingSurvivesConcat(a: string, b: string)
    requires IsEnding(a)
    ensures IsEnding(a + b) && IsEnding(b + a)
  {
    var i :| 0 <= i < |EndingMarkers| && Contains(a, EndingMarkers[i]);
    ContainsInConcat(a, b, EndingMarkers[i]);
    ContainsInConcat(b, a, EndingMarkers[i]);
  }

  /** `conversationHistory.slice(-20)`: the last twenty entries, or all of them when there
      are fewer. */
  function LimitHistory(h: seq<Message>): (r: seq<Message>)
    ensures |r| == if |h| <= HistoryWindow then |h| else HistoryWindow
    ensures r == h[|h| - |r|..]
  {
    if |h| <= HistoryWindow then h else h[|h| - HistoryWindow..]
  }

  /** The conversation part of the chat request: the limited history, then the new message. */
  function ChatRequest(userMessage: string, history: seq<Message>): seq<Message> {
    LimitHistory(history) + [Message(User, userMessage)]
  }

  /** The request carries the last twenty history messages (or all of them) and ends with the
      user's new message. */
  lemma ChatRequestShape(userMessage: string, history: seq<Message>)
    ensures var req := ChatRequest(userMessage, history);
            && |req| - 1 == (if |history| <= HistoryWindow then |history| else HistoryWindow)
            && req[|req| - 1] == Message(User, userMessage)
            && req[..|req| - 1] == history[|history| - (|req| - 1)..]
  {
    var req := ChatRequest(userMessage, history);
    assert req[..|req| - 1] == LimitHistory(history);
  }

  /** `getChatResponse`: it never rejects; a missing key and a failed request give fixed
      apologies. */
  function ChatReply(userMessage: string, history: seq<Message>, hasApiKey: bool,
                     server: seq<Message> -> Reply): (r: string)
    ensures !hasApiKey ==> r == NoKeyReply
    ensures hasApiKey ==>
      r == (var reply := server(ChatRequest(userMessage, history)); if reply.Failed? then ConfusedReply else reply.text)
  {
    if !hasApiKey then NoKeyReply
    else
      var reply := server(ChatRequest(userMessage, history));
      if reply.Failed? then ConfusedReply else reply.text
  }

  /** What `handleSend` does with the text in the input box. */
  datatype SendKind = Ignored | CardRequest | Conversation(ending: bool)

  /** Blank input is ignored; input containing "生成卡片" is a card request; anything else is
      a conversation turn, an ending one when it contains an ending marker. */
  function Decide(input: string): (d: SendKind)
    ensures d == Ignored <==> AllSpace(input)
    ensures d == CardRequest <==> !AllSpace(input) && Contains(input, CardCommand)
    ensures d.Conversation? ==> (d.ending <==> IsEnding(input))
  {
    TrimEmptyIffBlank(input);
    if Trim(input) == [] then Ignored
    else if Contains(input, CardCommand) then CardRequest
    else Conversation(IsEnding(input))
  }

  /** `messages.map(m => ({ role: m.role, content: m.content }))` */
  function ToMessages(ms: seq<ChatMessage>): seq<Message> {
    seq(|ms|, i requires 0 <= i < |ms| => Message(ms[i].role, ms[i].content))
  }

  /** The ids the page hands out: the message at index `i` has id `i + 1`. */
  predicate Numbered(ms: seq<ChatMessage>) {
    forall i :: 0 <= i < |ms| ==> ms[i].id == i + 1
  }

  /** `prev.map(msg => msg.id === id ? { ...msg, content: text } : msg)` */
  function ReplaceContent(ms: seq<ChatMessage>, id: int, text: string): (r: seq<ChatMessage>)
    ensures |r| == |ms|
    ensures forall i :: 0 <= i < |ms| ==> r[i].id == ms[i].id && r[i].role == ms[i].role
    ensures forall i :: 0 <= i < |ms| && ms[i].id != id ==> r[i] == ms[i]
    ensures forall i :: 0 <= i < |ms| && ms[i].id == id ==> r[i].content == text
  {
    seq(|ms|, i requires 0 <= i < |ms| => if ms[i].id == id then ms[i].(content := text) else ms[i])
  }

  /** The messages after a conversation turn: the user's message and the thinking placeholder
      are appended, then every message with the placeholder's id gets the reply. */
  function Converse(ms: seq<ChatMessage>, input: string, reply: string): (r: seq<ChatMessage>)
    ensures |r| == |ms| + 2
    ensures r[|ms|] == ChatMessage(|ms| + 1, User, input)
    ensures r[|ms| + 1] == ChatMessage(|ms| + 2, Assistant, reply)
  {
    var user := ChatMessage(|ms| + 1, User, input);
    var thinking := ChatMessage(|ms| + 2, Assistant, ThinkingText);
    ReplaceContent(ms + [user, thinking], |ms| + 2, reply)
  }

  /** With numbered messages only the placeholder has its id: a turn appends the user's message
      and the reply, and the messages stay numbered. */
  lemma ConverseAppends(ms: seq<ChatMessage>, input: string, reply: string)
    requires Numbered(ms)
    ensures Converse(ms, input, reply) == ms + [ChatMessage(|ms| + 1, User, input), ChatMessage(|ms| + 2, Assistant, reply)]
    ensures Numbered(Converse(ms, input, reply))
  {
    var r := Converse(ms, input, reply);
    var expected := ms + [ChatMessage(|ms| + 1, User, input), ChatMessage(|ms| + 2, Assistant, reply)];
    assert forall i :: 0 <= i < |ms| ==> ms[i].id != |ms| + 2;
    assert |r| == |expected|;
    assert forall i :: 0 <= i < |r| ==> r[i] == expected[i];
  }

  /** What `handleSend` leaves behind. */
  datatype SendStep = SendStep(kind: SendKind, view: ChatView, request: Option<seq<Message>>)

  /** `handleSend` on the view. A card request appends the user's message and shows the button
      without calling the model; a conversation turn sends the previous messages and the new
      one, appends the user's message and the reply, counts the turn, and shows the button
      after an ending message. */
  function AfterSend(v: ChatView, input: string, hasApiKey: bool, server: seq<Message> -> Reply): (r: SendStep)
    ensures r.kind == Decide(input)
    ensures r.kind == Ignored ==> r.view == v
    ensures r.request.Some? <==> r.kind.Conversation?
    ensures r.kind.Conversation? ==> r.view.messageCount == v.messageCount + 1
    ensures !r.kind.Conversation? ==> r.view.messageCount == v.messageCount
    ensures r.view.showGenerateEchoButton
            <==> v.showGenerateEchoButton || r.kind == CardRequest || r.kind == Conversation(true)
  {
    StepFor(v, Decide(input), input, hasApiKey, server)
  }

  /** What `handleSend` does once the kind of input is known. */
  function StepFor(v: ChatView, kind: SendKind, input: string, hasApiKey: bool, server: seq<Message> -> Reply): SendStep {
    match kind
    case Ignored => SendStep(kind, v, None)
    case CardRequest => SendStep(kind, WithCardRequest(v, input), None)
    case Conversation(ending) =>
      var history := ToMessages(v.messages);
      SendStep(kind, WithTurn(v, input, ChatReply(input, history, hasApiKey, server), ending),
               Some(ChatRequest(input, history)))
  }

  /** The view after a card request: the user's message is appended and the button shown. */
  function WithCardRequest(v: ChatView, input: string): ChatView {
    v.(messages := v.messages + [ChatMessage(|v.messages| + 1, User, input)], showGenerateEchoButton := true)
  }

  /** The view after a conversation turn: the message and the reply are appended, the turn is
      counted, and an ending message shows the button. */
  function WithTurn(v: ChatView, input: string, reply: string, ending: bool): ChatView {
    v.(messages := Converse(v.messages, input, reply), messageCount := v.messageCount + 1,
       showGenerateEchoButton := v.showGenerateEchoButton || ending)
  }

  /** Sending keeps the page's numbering: blank input changes nothing, a card request appends
      one message, and a conversation turn appends the user's message and the model's reply;
      the view's other state is untouched except the turn count and the button. */
  lemma SendKeepsNumbering(v: ChatView, input: string, hasApiKey: bool, server: seq<Message> -> Reply)
    requires Numbered(v.messages)
    ensures var r := AfterSend(v, input, hasApiKey, server);
            && Numbered(r.view.messages)
            && r.view.hasGeneratedToday == v.hasGeneratedToday
            && (r.kind.Conversation? ==>
                  r.view.messages == v.messages + [ChatMessage(|v.messages| + 1, User, input),
                    ChatMessage(|v.messages| + 2, Assistant, ChatReply(input, ToMessages(v.messages), hasApiKey, server))])
            && (r.kind == CardRequest ==> |r.view.messages| == |v.messages| + 1)
  {
    var r := AfterSend(v, input, hasApiKey, server);
    if r.kind.Conversation? {
      ConverseAppends(v.messages, input, ChatReply(input, ToMessages(v.messages), hasApiKey, server));
    }
  }

  /** The transcript of a silent archive: the saved messages without id 1, reduced to role and
      content. */
  function SilentTranscript(ms: seq<ChatMessage>): (r: seq<Message>)
    ensures |r| <= |ms|
  {
    if ms == [] then []
    else (if ms[0].id == 1 then [] else [Message(ms[0].role, ms[0].content)]) + SilentTranscript(ms[1..])
  }

  /** Messages none of which has id 1 all reach the silent transcript. */
  lemma {:induction false} SilentTranscriptKeepsAll(ms: seq<ChatMessage>)
    requires forall i :: 0 <= i < |ms| ==> ms[i].id != 1
    ensures SilentTranscript(ms) == ToMessages(ms)
    decreases |ms|
  {
    if ms != [] {
      SilentTranscriptKeepsAll(ms[1..]);
      assert ToMessages(ms) == [Message(ms[0].role, ms[0].content)] + ToMessages(ms[1..]);
    }
  }

  /** For a session numbered as the page numbers it, the silent transcript is everything after
      the greeting. */
  lemma SilentTranscriptDropsGreeting(ms: seq<ChatMessage>)
    requires Numbered(ms) && ms != []
    ensures SilentTranscript(ms) == ToMessages(ms[1..])
  {
    SilentTranscriptKeepsAll(ms[1..]);
  }

  /** The archive written for an unarchived previous day: placeholder mood and keyword, the
      three records set to "今日专注现有进度", the transcript, and the silent mark. */
  function SilentArchive(prev: string, ms: seq<ChatMessage>): (e: Entry)
    ensures e.Archive? && e.date == prev && e.isSilent
    ensures e.mood == Pending && e.keywords == Some([Pending]) && e.advice == ""
    ensures e.messages == Some(SilentTranscript(ms))
  {
    Archive(prev, Pending, Some([Pending]), Records(SteadyProgress, SteadyProgress, SteadyProgress),
            Some(SilentTranscript(ms)), "", true)
  }

  /** The chat view's state. */
  datatype ChatView = ChatView(messages: seq<ChatMessage>, messageCount: nat,
                               showGenerateEchoButton: bool, hasGeneratedToday: bool)

  const InitialView: ChatView := ChatView([ChatMessage(1, Assistant, FirstGreeting)], 0, false, false)

  /** `lastConversationDate && lastConversationDate !== today` */
  predicate IsRollover(lastDate: Option<string>, today: string) {
    lastDate.Some? && lastDate.value != "" && lastDate.value != today
  }

  /** The previous day is captured: its session was saved and no archive exists for it. */
  predicate Captures(p: Persisted, prev: string) {
    && p.archives != Unparsable
    && prev in p.history && p.history[prev].Saved?
    && !HasSlot(p.archives, prev)
  }

  /** The silent capture of the previous day's session (lines 177-212): the archive map gains
      the silent archive under `prev` when `Captures` holds, and is left as it was otherwise;
      no key but `prev` changes and an existing archive is never replaced. */
  function Capture(p: Persisted, prev: string): (r: Slot)
    requires ValidPersisted(p) && p.archives != Unparsable
    ensures r.Stored? ==> Wf(r.store)
    ensures Captures(p, prev) ==> LookupSlot(r, prev) == Some(SilentArchive(prev, p.history[prev].messages))
    ensures !Captures(p, prev) ==> r == p.archives
    ensures forall k :: k != prev ==> LookupSlot(r, k) == LookupSlot(p.archives, k)
    ensures forall k :: HasSlot(p.archives, k) ==> LookupSlot(r, k) == LookupSlot(p.archives, k)
  {
    if Captures(p, prev) then
      Stored(Put(Parse(p.archives).value, prev, SilentArchive(prev, p.history[prev].messages)))
    else p.archives
  }

  /** What the mount effect leaves behind; `completed` is false when it throws. */
  datatype MountOutcome = MountOutcome(storage: Persisted, view: ChatView, completed: bool)

  /** The mount effect (lines 166-247). An archive map that does not parse makes it throw:
      on a new day before anything changes, on the same day after the session has been loaded
      and the date written. Otherwise, on a new day the previous session may be captured, is
      then removed, and the view starts over; on the same day (or the first launch) today's
      saved session is loaded. Either way the last date becomes today and the view learns
      whether today already has an archive. */
  function AfterMount(p: Persisted, v: ChatView, today: string): (r: MountOutcome)
    requires ValidPersisted(p)
    ensures ValidPersisted(r.storage)
    ensures r.completed <==> p.archives != Unparsable
    ensures r.storage.backup == p.backup
    ensures r.completed || !IsRollover(p.lastDate, today) ==> r.storage.lastDate == Some(today)
    ensures !r.completed && IsRollover(p.lastDate, today) ==> r.storage == p && r.view == v
    ensures r.completed ==> r.view.hasGeneratedToday == HasSlot(r.storage.archives, today)
    ensures forall k :: HasSlot(p.archives, k) ==> LookupSlot(r.storage.archives, k) == LookupSlot(p.archives, k)
    ensures forall k :: !(IsRollover(p.lastDate, today) && k == p.lastDate.value) ==>
      LookupSlot(r.storage.archives, k) == LookupSlot(p.archives, k)
    ensures IsRollover(p.lastDate, today) && r.completed ==>
      && r.view == ChatView([ChatMessage(1, Assistant, NewDayGreeting)], 0, false, r.view.hasGeneratedToday)
      && r.storage.history == p.history - {p.lastDate.value}
      && (Captures(p, p.lastDate.value) ==>
            LookupSlot(r.storage.archives, p.lastDate.value)
            == Some(SilentArchive(p.lastDate.value, p.history[p.lastDate.value].messages)))
      && (!Captures(p, p.lastDate.value) ==> r.storage.archives == p.archives)
    ensures !IsRollover(p.lastDate, today) ==>
      var messages := if today in p.history && p.history[today].Saved? then p.history[today].messages else v.messages;
      && r.storage.archives == p.archives && r.storage.history == p.history
      && r.view == if r.completed then v.(messages := messages, hasGeneratedToday := HasSlot(p.archives, today))
                   else v.(messages := messages)
  {
    if IsRollover(p.lastDate, today) then
      var prev := p.lastDate.value;
      if p.archives == Unparsable then MountOutcome(p, v, false)
      else
        var archives := Capture(p, prev);
        var q := Persisted(archives, p.backup, Some(today), p.history - {prev});
        MountOutcome(q, ChatView([ChatMessage(1, Assistant, NewDayGreeting)], 0, false, HasSlot(archives, today)), true)
    else
      var messages := if today in p.history && p.history[today].Saved? then p.history[today].messages else v.messages;
      var q := p.(lastDate := Some(today));
      if p.archives == Unparsable then MountOutcome(q, v.(messages := messages), false)
      else MountOutcome(q, v.(messages := messages, hasGeneratedToday := HasSlot(p.archives, today)), true)
  }

  /** Capture happens at most once per day: mounting again on the same day leaves the archive
      map and the saved sessions as the first mount left them. */
  lemma MountTwiceSameDay(p: Persisted, v: ChatView, today: string)
    requires ValidPersisted(p) && today != ""
    ensures var r1 := AfterMount(p, v, today);
            var r2 := AfterMount(r1.storage, r1.view, today);
            r1.completed ==> r2.storage.archives == r1.storage.archives && r2.storage.history == r1.storage.history
  {
  }

  /** What `handleGenerateCard` reports. */
  datatype CardResult =
    | Crashed               // the archive map does not parse; the handler rejects
    | Existing(archive: Entry)
    | NotSummarized         // the summarizer rejected; nothing was written
    | Generated(archive: Entry)

  datatype CardStep = CardStep(storage: Persisted, result: CardResult)

  /** The record `handleGenerateCard` stores: the summary with `date` forced to today and the
      whole conversation attached. */
  function CompleteArchive(res: ArchiveResult, today: string, ms: seq<ChatMessage>): (e: Entry)
    ensures e.Archive? && e.date == today && !e.isSilent
    ensures e.mood == res.mood && e.keywords == Some(res.keywords) && e.records == res.records
            && e.advice == res.advice
    ensures e.messages == Some(ToMessages(ms))
  {
    Archive(today, res.mood, Some(res.keywords), res.records, Some(ToMessages(ms)), res.advice, false)
  }

  /** `handleGenerateCard` given the summarizer's outcome: an existing archive for today is
      shown and nothing is written; otherwise a summary is stored under today, nothing else in
      the map changes, and the last date becomes today; a rejected summary writes nothing. */
  function GenerateCardStep(p: Persisted, ms: seq<ChatMessage>, today: string, summary: Outcome): (r: CardStep)
    requires ValidPersisted(p)
    ensures ValidPersisted(r.storage)
    ensures r.result.Crashed? <==> p.archives == Unparsable
    ensures r.result.Existing? <==> HasSlot(p.archives, today)
    ensures r.result.Existing? ==> Some(r.result.archive) == LookupSlot(p.archives, today)
    ensures r.result.Generated? <==> p.archives != Unparsable && !HasSlot(p.archives, today) && summary.Produced?
    ensures !r.result.Generated? ==> r.storage == p
    ensures r.result.Generated? ==>
      && r.result.archive == CompleteArchive(summary.result, today, ms)
      && LookupSlot(r.storage.archives, today) == Some(r.result.archive)
      && (forall k :: k != today ==> LookupSlot(r.storage.archives, k) == LookupSlot(p.archives, k))
      && r.storage == p.(archives := r.storage.archives, lastDate := Some(today))
  {
    if p.archives.Unparsable? then CardStep(p, Crashed)
    else if HasSlot(p.archives, today) then CardStep(p, Existing(p.archives.store.vals[today]))
    else if summary.Raised? then CardStep(p, NotSummarized)
    else
      var complete := CompleteArchive(summary.result, today, ms);
      CardStep(p.(archives := WriteSlot(p.archives, today, complete), lastDate := Some(today)), Generated(complete))
  }

  /** A generated card never replaces an archive: every archive present before is still there. */
  lemma GenerateCardNeverOverwrites(p: Persisted, ms: seq<ChatMessage>, today: string, summary: Outcome, k: string)
    requires ValidPersisted(p) && HasSlot(p.archives, k)
    ensures LookupSlot(GenerateCardStep(p, ms, today, summary).storage.archives, k) == LookupSlot(p.archives, k)
  {
  }

  /** The record `handleSaveToArchive` stores: the summary as returned, date included. */
  function SummaryArchive(res: ArchiveResult): Entry {
    Archive(res.date, res.mood, Some(res.keywords), res.records, None, res.advice, false)
  }

  /** `handleSaveToArchive` given the summarizer's outcome: the summary is stored under today
      whether or not an archive is there, and nothing else changes; a rejected summary or a map
      that does not parse is caught and writes nothing. */
  function SaveToArchiveStep(p: Persisted, today: string, summary: Outcome): (r: Persisted)
    requires ValidPersisted(p)
    ensures ValidPersisted(r)
    ensures summary.Raised? || p.archives == Unparsable ==> r == p
    ensures summary.Produced? && p.archives != Unparsable ==>
      && LookupSlot(r.archives, today) == Some(SummaryArchive(summary.result))
      && (forall k :: k != today ==> LookupSlot(r.archives, k) == LookupSlot(p.archives, k))
      && r == p.(archives := r.archives)
  {
    if summary.Raised? then p
    else
      match Parse(p.archives)
      case None => p
      case Some(s) => p.(archives := Stored(Put(s, today, SummaryArchive(summary.result))))
  }

  /** The page component: its view state, and the browser storage it reads and writes. */
  class ChatPage {
    const storage: LocalStorage
    var messages: seq<ChatMessage>
    var messageCount: nat
    var showGenerateEchoButton: bool
    var hasGeneratedToday: bool

    function View(): ChatView
      reads this
    {
      ChatView(messages, messageCount, showGenerateEchoButton, hasGeneratedToday)
    }

    ghost predicate Valid()
      reads this, storage
    {
      storage.Valid()
    }

    /** The first render: the greeting alone. */
    constructor (ls: LocalStorage)
      requires ls.Valid()
      ensures storage == ls && Valid()
      ensures View() == InitialView
      ensures storage.Value() == old(ls.Value())
    {
      storage := ls;
      messages := InitialView.messages;
      messageCount := 0;
      showGenerateEchoButton := false;
      hasGeneratedToday := false;
    }

    /** The mount effect; `completed` is false where the source throws. */
    method Mount(today: string) returns (completed: bool)
      requires Valid()
      modifies this, storage
      ensures Valid()
      ensures var r := AfterMount(old(storage.Value()), old(View()), today);
              storage.Value() == r.storage && View() == r.view && completed == r.completed
    {
      var last := storage.lastDate;
      if IsRollover(last, today) {
        var prev := last.value;
        var parsed := Parse(storage.archives);
        if parsed.None? {
          return false;
        }
        var existing := parsed.value;
        if prev in storage.history && storage.history[prev].Saved? && !Has(existing, prev) {
          var silent := SilentArchive(prev, storage.history[prev].messages);
          existing := Put(existing, prev, silent);
          storage.archives := Stored(existing);
        }
        messages := [ChatMessage(1, Assistant, NewDayGreeting)];
        messageCount := 0;
        showGenerateEchoButton := false;
        hasGeneratedToday := false;
        storage.history := storage.history - {prev};
      } else if today in storage.history && storage.history[today].Saved? {
        messages := storage.history[today].messages;
      }
      storage.lastDate := Some(today);
      var again := Parse(storage.archives);
      if again.None? {
        return false;
      }
      hasGeneratedToday := Has(again.value, today);
      completed := true;
    }

    /** The session-save effect: the messages are stored under today once there is more than
        the greeting. */
    method SaveSession(today: string)
      requires Valid()
      modifies storage
      ensures Valid()
      ensures storage.Value() == old(storage.Value()).(history :=
        if |messages| > 1 then old(storage.history)[today := Saved(messages)] else old(storage.history))
    {
      if |messages| > 1 {
        storage.history := storage.history[today := Saved(messages)];
      }
    }

    /** `handleSend`, followed by the session-save effect, as `AfterSend` describes it. */
    method Send(input: string, today: string, hasApiKey: bool, server: seq<Message> -> Reply)
      returns (kind: SendKind, request: Option<seq<Message>>)
      requires Valid()
      modifies this, storage
      ensures Valid()
      ensures var r := AfterSend(old(View()), input, hasApiKey, server);
              kind == r.kind && request == r.request && View() == r.view
      ensures kind == Ignored ==> unchanged(storage)
      ensures kind != Ignored ==> storage.Value() == old(storage.Value()).(history :=
        if |messages| > 1 then old(storage.history)[today := Saved(messages)] else old(storage.history))
    {
      kind := Decide(input);
      if kind == Ignored {
        return kind, None;
      }
      request := Respond(input, kind, hasApiKey, server);
      SaveSession(today);
    }

    /** The body of `handleSend` for non-blank input: a card request appends the message and
        shows the button; a turn asks the model, appends the message and the reply, and counts
        the turn. */
    method Respond(input: string, kind: SendKind, hasApiKey: bool, server: seq<Message> -> Reply)
      returns (request: Option<seq<Message>>)
      requires kind != Ignored
      modifies this
      ensures var r := StepFor(old(View()), kind, input, hasApiKey, server);
              request == r.request && View() == r.view
    {
      var next: ChatView;
      if kind == CardRequest {
        next := WithCardRequest(View(), input);
        request := None;
      } else {
        var history := ToMessages(messages);
        request := Some(ChatRequest(input, history));
        next := WithTurn(View(), input, ChatReply(input, history, hasApiKey, server), kind.ending);
      }
      messages, messageCount, showGenerateEchoButton := next.messages, next.messageCount, next.showGenerateEchoButton;
    }

    /** `handleGenerateCard` with the summarizer's inputs as parameters. */
    method GenerateCard(today: string, hasApiKey: bool, server: string -> Reply, parse: string -> Parsed)
      returns (result: CardResult)
      requires Valid()
      modifies storage
      ensures Valid()
      ensures var step := GenerateCardStep(old(storage.Value()), messages, today,
                                           SummarizeToArchive(ToMessages(messages), hasApiKey, server, parse));
              storage.Value() == step.storage && result == step.result
    {
      var parsed := Parse(storage.archives);
      if parsed.None? {
        return Crashed;
      }
      var existing := parsed.value;
      if Has(existing, today) {
        return Existing(existing.vals[today]);
      }
      var summary := SummarizeToArchive(ToMessages(messages), hasApiKey, server, parse);
      if summary.Raised? {
        return NotSummarized;
      }
      var complete := CompleteArchive(summary.result, today, messages);
      existing := Put(existing, today, complete);
      storage.archives := Stored(existing);
      storage.lastDate := Some(today);
      result := Generated(complete);
    }

    /** `handleSaveToArchive` with the summarizer's inputs as parameters; `saved` says whether
        the write happened. */
    method SaveToArchive(today: string, hasApiKey: bool, server: string -> Reply, parse: string -> Parsed)
      returns (saved: bool)
      requires Valid()
      modifies storage
      ensures Valid()
      ensures var summary := SummarizeToArchive(ToMessages(messages), hasApiKey, server, parse);
              storage.Value() == SaveToArchiveStep(old(storage.Value()), today, summary)
              && (saved <==> summary.Produced? && old(storage.archives) != Unparsable)
    {
      var summary := SummarizeToArchive(ToMessages(messages), hasApiKey, server, parse);
      if summary.Raised? {
        return false;
      }
      var parsed := Parse(storage.archives);
      if parsed.None? {
        return false;
      }
      storage.archives := Stored(Put(parsed.value, today, SummaryArchive(summary.result)));
      saved := true;
    }
  }
}
