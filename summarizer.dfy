/** The response handling of the two AI calls in `src/lib/aiService.ts`. The HTTP exchange
    is a parameter (`server`: what a request text gets back), and so is `JSON.parse` of the
    reply text (`parse`); what the code does around them is modelled. */
module Summarizer {
  import opened Strings
  import opened ArchiveStore

  /** `${msg.role}: ${msg.content}` */
  function Line(m: Message): string {
    RoleName(m.role) + ": " + m.content
  }

  /** `messages.map(msg => `${msg.role}: ${msg.content}`).join('\n')` */
  function Transcript(ms: seq<Message>): (r: string)
    ensures r == "" <==> ms == []
  {
    if ms == [] then ""
    else if |ms| == 1 then Line(ms[0])
    else Line(ms[0]) + "\n" + Transcript(ms[1..])
  }

  /** The transcript of two conversations one after the other is the two transcripts joined
      by a newline: every message keeps its place in the text. */
  lemma {:induction false} TranscriptConcat(a: seq<Message>, b: seq<Message>)
    requires a != [] && b != []
    ensures Transcript(a + b) == Transcript(a) + "\n" + Transcript(b)
    decreases |a|
  {
    if |a| == 1 {
      assert (a + b)[1..] == b;
    } else {
      assert (a + b)[1..] == a[1..] + b;
      TranscriptConcat(a[1..], b);
    }
  }

  const JsonFence: string := "```json"
  const Fence: string := "```"

  /** `s.replace(/<p>\n?/, '')` for a text that starts with `p`: the leftmost match is at the
      start, and it takes one newline after `p` when there is one. */
  function DropLeading(s: string, p: string): string
    requires StartsWith(s, p)
  {
    var rest := s[|p|..];
    if rest != [] && rest[0] == '\n' then rest[1..] else rest
  }

  /** `s.replace(/```\n?$/, '')`: without the `m` flag `$` matches only at the very end, so
      this drops a final fence, or a fence followed by one final newline. */
  function DropTrailingFence(s: string): string {
    if EndsWith(s, Fence + "\n") then s[..|s| - 4]
    else if EndsWith(s, Fence) then s[..|s| - 3]
    else s
  }

  /** The markdown fence removal before `JSON.parse`: a leading "```json" fence, or else a
      leading "```" fence, is removed together with a trailing fence; the result is trimmed.
      Text that does not start with a fence is only trimmed. */
  function StripFences(content: string): (r: string)
    ensures IsTrimmed(r)
    ensures !StartsWith(content, Fence) ==> r == Trim(content)
  {
    FencePrefix(content);
    Trim(Unfence(content))
  }

  /** The two `replace` calls of the fence removal, before the trim. */
  function Unfence(content: string): string {
    if StartsWith(content, JsonFence) then DropTrailingFence(DropLeading(content, JsonFence))
    else if StartsWith(content, Fence) then DropTrailingFence(DropLeading(content, Fence))
    else content
  }

  /** A text that starts with the tagged fence starts with the plain one. */
  lemma FencePrefix(s: string)
    ensures StartsWith(s, JsonFence) ==> StartsWith(s, Fence)
  {
    if StartsWith(s, JsonFence) {
      assert s[..3] == s[..7][..3];
    }
  }

  /** A reply ending in a fence on its own line loses the fence and keeps the newline. */
  lemma DropFenceLine(body: string)
    ensures DropTrailingFence(body + "\n" + Fence) == body + "\n"
  {
    var t := body + "\n" + Fence;
    assert t[|t| - 1] == '`';
    assert t[|t| - 3..] == Fence && t[..|t| - 3] == body + "\n";
  }

  /** A reply ending in a fence right after the JSON loses just the fence. */
  lemma DropFenceInline(body: string)
    ensures DropTrailingFence(body + Fence) == body
  {
    var u := body + Fence;
    assert u[|u| - 1] == '`';
    assert u[|u| - 3..] == Fence && u[..|u| - 3] == body;
  }

  /** A trimmed JSON text in a "```json" block on lines of its own comes out as it went in. */
  lemma StripTaggedBlock(body: string)
    requires IsTrimmed(body)
    ensures StripFences(JsonFence + "\n" + body + "\n" + Fence) == body
  {
    var nl: string := "\n";
    var s := JsonFence + "\n" + body + "\n" + Fence;
    assert StartsWith(s, JsonFence) && s[|JsonFence|..] == "\n" + body + "\n" + Fence;
    assert DropLeading(s, JsonFence) == body + "\n" + Fence;
    DropFenceLine(body);
    assert AllSpace(nl);
    TrimAround([], body, nl);
    assert [] + body + nl == body + nl;
  }

  /** The same for an untagged "```" block. */
  lemma StripPlainBlock(body: string)
    requires IsTrimmed(body)
    ensures StripFences(Fence + "\n" + body + "\n" + Fence) == body
  {
    var nl: string := "\n";
    var s := Fence + "\n" + body + "\n" + Fence;
    assert s[3] == '\n';
    assert !StartsWith(s, JsonFence) by { assert JsonFence[3] == 'j'; }
    assert StartsWith(s, Fence) && s[|Fence|..] == "\n" + body + "\n" + Fence;
    assert DropLeading(s, Fence) == body + "\n" + Fence;
    DropFenceLine(body);
    assert AllSpace(nl);
    TrimAround([], body, nl);
    assert [] + body + nl == body + nl;
  }

  /** The same for a "```json" block written on one line. */
  lemma StripInlineBlock(body: string)
    requires IsTrimmed(body)
    ensures StripFences(JsonFence + body + Fence) == body
  {
    var s := JsonFence + body + Fence;
    assert StartsWith(s, JsonFence) && s[|JsonFence|..] == body + Fence;
    assert body != [] ==> body[0] != '\n';
    assert DropLeading(s, JsonFence) == body + Fence;
    DropFenceInline(body);
    TrimOfTrimmed(body);
  }

  /** A bare trimmed JSON text that does not start with a fence is left as it is. */
  lemma StripBare(body: string)
    requires IsTrimmed(body) && !StartsWith(body, Fence)
    ensures StripFences(body) == body
  {
    TrimOfTrimmed(body);
  }

  /** The model's reply to a request: an error status (or no usable `choices[0].message.content`),
      or the reply text. */
  datatype Reply = Failed | Content(text: string)

  /** What `JSON.parse` yields for the summary, as far as the checks read it: a value whose
      fields cannot be read (a parse error, `null`), or an object with the fields the check
      looks at. `records` is absent or an object; its slots are not checked. */
  datatype Parsed =
    | Invalid
    | Object(date: string, keywords: Option<seq<string>>, mood: string, records: Option<Records>, advice: string)

  /** The summary `summarizeToArchive` returns. */
  datatype ArchiveResult = ArchiveResult(date: string, keywords: seq<string>, mood: string, records: Records, advice: string)

  /** `summarizeToArchive` either resolves with a summary or rejects. */
  datatype Outcome = Produced(result: ArchiveResult) | Raised

  /** The shape check: `date`, `mood`, `records` and `导师建议` truthy, `keywords` an array. */
  predicate AcceptedShape(p: Parsed) {
    p.Object? && p.date != "" && p.keywords.Some? && p.mood != "" && p.records.Some? && p.advice != ""
  }

  /** `summarizeToArchive(messages)`. A missing API key, a failed request, a reply that does not
      parse and a reply of the wrong shape all end in the `catch` block, whose fallback record
      names `today`, a `const` of the `try` block: the fallback raises instead of returning,
      so every failure rejects. An accepted reply is returned field for field (after the
      check, `result.date || today` is `result.date`). */
  function SummarizeToArchive(messages: seq<Message>, hasApiKey: bool, server: string -> Reply,
                              parse: string -> Parsed): (o: Outcome)
    ensures o.Produced? <==>
      hasApiKey && server(Transcript(messages)).Content?
      && AcceptedShape(parse(StripFences(server(Transcript(messages)).text)))
    ensures o.Produced? ==>
      var p := parse(StripFences(server(Transcript(messages)).text));
      o.result == ArchiveResult(p.date, p.keywords.value, p.mood, p.records.value, p.advice)
  {
    if !hasApiKey then Raised
    else
      var reply := server(Transcript(messages));
      if reply.Failed? then Raised
      else
        var result := parse(StripFences(reply.text));
        if !AcceptedShape(result) then Raised
        else
          var date := if result.date != "" then result.date else "";
          Produced(ArchiveResult(date, result.keywords.value, result.mood, result.records.value, result.advice))
  }

  /** The reflection `generateReflection` returns. */
  datatype Reflection = Reflection(mood: string, keywords: seq<string>, reflections: seq<string>)

  /** What `JSON.parse` yields for a reflection reply (no fence removal happens here). */
  datatype ParsedReflection =
    | BadReflection
    | ReflectionObject(mood: string, keywords: Option<seq<string>>, reflections: Option<seq<string>>)

  /** The value `generateReflection` falls back to. */
  const DefaultReflection: Reflection :=
    Reflection("平静思考", ["记录", "复盘", "成长"], ["还没有今天的记录", "点击对话页面开始记录", "让每一天都有成长痕迹"])

  predicate AcceptedReflection(p: ParsedReflection) {
    p.ReflectionObject? && p.mood != "" && p.keywords.Some? && p.reflections.Some?
  }

  /** `generateReflection(content)`: the parsed reply when its `mood` is truthy and `keywords`
      and `reflections` are arrays; on any failure the fixed default, never an error. */
  function GenerateReflection(content: string, hasApiKey: bool, server: string -> Reply,
                              parse: string -> ParsedReflection): (r: Reflection)
    ensures r != DefaultReflection ==>
      hasApiKey && server(content).Content? && AcceptedReflection(parse(server(content).text))
    ensures hasApiKey && server(content).Content? && AcceptedReflection(parse(server(content).text)) ==>
      var p := parse(server(content).text);
      r == Reflection(p.mood, p.keywords.value, p.reflections.value)
  {
    if !hasApiKey then DefaultReflection
    else
      var reply := server(content);
      if reply.Failed? then DefaultReflection
      else
        var result := parse(reply.text);
        if !AcceptedReflection(result) then DefaultReflection
        else Reflection(result.mood, result.keywords.value, result.reflections.value)
  }
}
