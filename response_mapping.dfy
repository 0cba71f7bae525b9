/** Mapping the vendor's run response to the services' response types:
    AgentRunResponseExtensions.ToAgentResponse (with MapMessageRole and
    ExtractTextContent) and the structured-output variant of the SO
    ThreadService. Times are integers; DateTime.UtcNow is the parameter
    `now`. */
module ResponseMapping {
  import opened Common
  import ThreadState

  datatype MessageRole = Assistant | System | Tool | User

  /** One item of a message's content list, as reflection sees it: a null
      entry, an item with a `Text` property (its value's string form), or an
      item without one (its ToString() and its type's full name). */
  datatype ContentItem =
    | NullItem
    | TextItem(text: Option<string>)
    | OtherItem(display: Option<string>, fullName: string)

  /** The vendor's UsageDetails: 64-bit counts that may be null. */
  datatype UsageDetails = UsageDetails(
    inputTokenCount: Option<int>,
    outputTokenCount: Option<int>,
    totalTokenCount: Option<int>,
    additionalCounts: Option<map<string, int>>)

  datatype TokenUsage = TokenUsage(
    inputTokenCount: int,
    outputTokenCount: int,
    totalTokenCount: int,
    additionalCounts: Option<map<string, int>>)

  /** One vendor chat message. `role` is ChatRole.ToString(). */
  datatype ChatMessage = ChatMessage(
    authorName: Option<string>,
    createdAt: Option<int>,
    role: string,
    messageId: Option<string>,
    contents: Option<seq<ContentItem>>)

  /** The vendor's AgentRunResponse. */
  datatype RunResponse = RunResponse(
    agentId: Option<string>,
    createdAt: Option<int>,
    usage: Option<UsageDetails>,
    messages: Option<seq<ChatMessage>>)

  datatype Message = Message(authorName: string, createdAt: int, role: MessageRole, messageId: string, content: string)

  datatype AgentResponse = AgentResponse(agentId: string, createdAt: int, usage: Option<TokenUsage>, messages: seq<Message>)

  datatype StructuredMessage<T> = StructuredMessage(
    authorName: string,
    createdAt: int,
    role: MessageRole,
    messageId: string,
    structuredOutput: Option<T>)

  datatype StructuredAgentResponse<T> = StructuredAgentResponse(
    agentId: string,
    threadId: string,
    createdAt: int,
    messages: seq<StructuredMessage<T>>,
    usage: Option<TokenUsage>)

  /** The unchecked C# cast `(int)` of a long: the value modulo 2^32, read
      as a signed 32-bit number. */
  function ToInt32(v: int): (r: int)
    ensures -0x8000_0000 <= r < 0x8000_0000
    ensures (v - r) % 0x1_0000_0000 == 0
    ensures -0x8000_0000 <= v < 0x8000_0000 ==> r == v
  {
    var m := v % 0x1_0000_0000;
    if m >= 0x8000_0000 then m - 0x1_0000_0000 else m
  }

  /** `(int)(count ?? 0)` */
  function CountOrZero(count: Option<int>): (r: int)
    ensures count.None? ==> r == 0
    ensures count.Some? && -0x8000_0000 <= count.value < 0x8000_0000 ==> r == count.value
  {
    if count.Some? then ToInt32(count.value) else 0
  }

  /** The Usage projection shared by both response mappings. */
  function MapUsage(usage: Option<UsageDetails>): (r: Option<TokenUsage>)
    ensures r.None? <==> usage.None?
    ensures r.Some? ==> r.value.inputTokenCount == CountOrZero(usage.value.inputTokenCount)
    ensures r.Some? ==> r.value.outputTokenCount == CountOrZero(usage.value.outputTokenCount)
    ensures r.Some? ==> r.value.totalTokenCount == CountOrZero(usage.value.totalTokenCount)
    ensures r.Some? ==> (r.value.additionalCounts.None? <==> usage.value.additionalCounts.None?)
    ensures r.Some? && r.value.additionalCounts.Some? ==>
              r.value.additionalCounts.value.Keys == usage.value.additionalCounts.value.Keys
              && forall k :: k in r.value.additionalCounts.value ==>
                   r.value.additionalCounts.value[k] == ToInt32(usage.value.additionalCounts.value[k])
  {
    if usage.None? then None
    else
      var u := usage.value;
      Some(TokenUsage(
        CountOrZero(u.inputTokenCount),
        CountOrZero(u.outputTokenCount),
        CountOrZero(u.totalTokenCount),
        if u.additionalCounts.None? then None
        else Some(map k | k in u.additionalCounts.value :: ToInt32(u.additionalCounts.value[k]))))
  }

  /** Counts that fit in 32 bits pass through unchanged; null counts are 0. */
  lemma MapUsageKeepsSmallCounts(usage: UsageDetails)
    requires forall c :: c in [usage.inputTokenCount, usage.outputTokenCount, usage.totalTokenCount] && c.Some?
                         ==> -0x8000_0000 <= c.value < 0x8000_0000
    ensures var r := MapUsage(Some(usage)).value;
            r.inputTokenCount == (if usage.inputTokenCount.Some? then usage.inputTokenCount.value else 0)
            && r.outputTokenCount == (if usage.outputTokenCount.Some? then usage.outputTokenCount.value else 0)
            && r.totalTokenCount == (if usage.totalTokenCount.Some? then usage.totalTokenCount.value else 0)
  {
    assert usage.inputTokenCount in [usage.inputTokenCount, usage.outputTokenCount, usage.totalTokenCount];
    assert usage.outputTokenCount in [usage.inputTokenCount, usage.outputTokenCount, usage.totalTokenCount];
    assert usage.totalTokenCount in [usage.inputTokenCount, usage.outputTokenCount, usage.totalTokenCount];
  }

  /** MapMessageRole: blank roles and unknown roles are User; the four role
      names are recognised whatever their case. */
  function MapMessageRole(role: Option<string>): (r: MessageRole)
    ensures IsNullOrWhiteSpace(role) ==> r == User
    ensures r == Assistant <==> role.Some? && ToLower(role.value) == "assistant"
    ensures r == System <==> role.Some? && ToLower(role.value) == "system"
    ensures r == Tool <==> role.Some? && ToLower(role.value) == "tool"
  {
    if role.None? then User
    else
      LowerNamedNotBlank(role.value);
      if IsBlank(role.value) then User
      else
        var lower := ToLower(role.value);
        if lower == "assistant" then Assistant
        else if lower == "system" then System
        else if lower == "tool" then Tool
        else User
  }

  /** A string whose lower-case form starts with a letter is not blank. */
  lemma LowerNamedNotBlank(s: string)
    ensures |ToLower(s)| > 0 && 'a' <= ToLower(s)[0] <= 'z' ==> !IsBlank(s)
  {
    if |ToLower(s)| > 0 && 'a' <= ToLower(s)[0] <= 'z' {
      assert ToLower(s)[0] == ToLowerChar(s[0]);
      assert !IsWhiteSpace(s[0]);
    }
  }

  /** Lower-casing keeps a string blank or non-blank. */
  lemma ToLowerKeepsBlank(s: string)
    ensures IsBlank(ToLower(s)) <==> IsBlank(s)
  {
    forall i | 0 <= i < |s|
      ensures IsWhiteSpace(ToLower(s)[i]) <==> IsWhiteSpace(s[i])
    {
      assert ToLower(s)[i] == ToLowerChar(s[i]);
    }
  }

  /** MapMessageRole does not depend on the case of its input. */
  lemma MapMessageRoleCaseInsensitive(s: string)
    ensures MapMessageRole(Some(s)) == MapMessageRole(Some(ToLower(s)))
  {
    ToLowerIdempotent(s);
    ToLowerKeepsBlank(s);
  }

  /** What one content item contributes to the extracted text. */
  function ItemText(item: ContentItem): (r: Option<string>)
    ensures r.Some? ==> !IsBlank(r.value)
    ensures r.Some? <==> match item
                         case NullItem => false
                         case TextItem(t) => !IsNullOrWhiteSpace(t)
                         case OtherItem(d, fullName) => !IsNullOrWhiteSpace(d) && d.value != fullName
  {
    match item
    case NullItem => None
    case TextItem(t) => if IsNullOrWhiteSpace(t) then None else t
    case OtherItem(d, fullName) => if IsNullOrWhiteSpace(d) || d.value == fullName then None else d
  }

  /** The `textParts` list: the contributions of the items, in order. */
  function TextParts(items: seq<ContentItem>): (r: seq<string>)
    ensures |r| <= |items|
    ensures forall i :: 0 <= i < |r| ==> !IsBlank(r[i])
  {
    if |items| == 0 then []
    else
      var last := ItemText(items[|items| - 1]);
      TextParts(items[..|items| - 1]) + (if last.Some? then [last.value] else [])
  }

  /** The parts of a concatenation are the parts of each side, in order. */
  lemma {:induction false} TextPartsAppend(a: seq<ContentItem>, b: seq<ContentItem>)
    ensures TextParts(a + b) == TextParts(a) + TextParts(b)
  {
    if |b| == 0 {
      assert a + b == a;
    } else {
      var init := b[..|b| - 1];
      assert (a + b)[..|a + b| - 1] == a + init;
      assert (a + b)[|a + b| - 1] == b[|b| - 1];
      TextPartsAppend(a, init);
    }
  }

  /** ExtractTextContent, as a value: "" for null contents, otherwise the
      parts joined by a single space. */
  function TextContent(contents: Option<seq<ContentItem>>): string
  {
    if contents.None? then "" else Join(" ", TextParts(contents.value))
  }

  /** ExtractTextContent: the loop over the items that collects `textParts`. */
  method ExtractTextContent(contents: Option<seq<ContentItem>>) returns (r: string)
    ensures r == TextContent(contents)
  {
    if contents.None? {
      return "";
    }
    var items := contents.value;
    var textParts: seq<string> := [];
    var i := 0;
    while i < |items|
      invariant 0 <= i <= |items|
      invariant textParts == TextParts(items[..i])
    {
      var item := items[i];
      assert items[..i + 1][..i] == items[..i];
      if !item.NullItem? {
        match item
        case TextItem(textValue) =>
          if !IsNullOrWhiteSpace(textValue) {
            textParts := textParts + [textValue.value];
          }
        case OtherItem(textValue, fullName) =>
          if !IsNullOrWhiteSpace(textValue) && textValue.value != fullName {
            textParts := textParts + [textValue.value];
          }
      }
      i := i + 1;
    }
    assert items[..i] == items;
    r := Join(" ", textParts);
  }

  /** Every item with a non-blank Text value shows up in the extracted text. */
  lemma TextItemAppears(items: seq<ContentItem>, k: nat)
    requires k < |items| && items[k].TextItem? && !IsNullOrWhiteSpace(items[k].text)
    ensures Contains(TextContent(Some(items)), items[k].text.value)
  {
    var t := items[k].text.value;
    assert items == items[..k] + [items[k]] + items[k + 1..];
    TextPartsAppend(items[..k] + [items[k]], items[k + 1..]);
    TextPartsAppend(items[..k], [items[k]]);
    assert TextParts([items[k]]) == [t] by {
      assert [items[k]][..0] == [];
    }
    var parts := TextParts(items);
    assert parts == TextParts(items[..k]) + [t] + TextParts(items[k + 1..]);
    assert parts[|TextParts(items[..k])|] == t;
    JoinContainsPart(" ", parts, |TextParts(items[..k])|);
  }

  /** A null item contributes nothing, wherever it sits. */
  lemma NullItemIgnored(a: seq<ContentItem>, b: seq<ContentItem>)
    ensures TextContent(Some(a + [NullItem] + b)) == TextContent(Some(a + b))
  {
    TextPartsAppend(a + [NullItem], b);
    TextPartsAppend(a, [NullItem]);
    TextPartsAppend(a, b);
    assert TextParts([NullItem]) == [] by {
      assert [NullItem][..0] == [];
    }
    assert TextParts(a + [NullItem]) == TextParts(a);
    assert TextParts(a + [NullItem] + b) == TextParts(a) + TextParts(b);
  }

  /** One mapped message; `now` stands for DateTime.UtcNow. */
  function MapMessage(msg: ChatMessage, now: int): (m: Message)
    ensures m.authorName == OrEmpty(msg.authorName) && m.messageId == OrEmpty(msg.messageId)
    ensures m.createdAt == (if msg.createdAt.Some? then msg.createdAt.value else now)
    ensures m.role == MapMessageRole(Some(msg.role))
    ensures m.content == TextContent(msg.contents)
  {
    Message(OrEmpty(msg.authorName),
            if msg.createdAt.Some? then msg.createdAt.value else now,
            MapMessageRole(Some(msg.role)),
            OrEmpty(msg.messageId),
            TextContent(msg.contents))
  }

  /** `Messages ?? []` */
  function MessagesOf(response: RunResponse): seq<ChatMessage>
  {
    if response.messages.Some? then response.messages.value else []
  }

  /** ToAgentResponse: a null response is rejected; otherwise one output
      message per input message in the same order, "" for missing ids and
      author names, 0 for null token counts. */
  function ToAgentResponse(response: Option<RunResponse>, now: int): (r: Result<AgentResponse>)
    ensures r.Err? <==> response.None?
    ensures r.Err? ==> r.error == ArgumentNull("agentRunResponse")
    ensures r.Ok? ==> r.value.agentId == OrEmpty(response.value.agentId)
    ensures r.Ok? ==> r.value.createdAt == (if response.value.createdAt.Some? then response.value.createdAt.value else now)
    ensures r.Ok? ==> r.value.usage == MapUsage(response.value.usage)
    ensures r.Ok? ==> |r.value.messages| == |MessagesOf(response.value)|
    ensures r.Ok? ==> forall i :: 0 <= i < |r.value.messages| ==>
                        r.value.messages[i] == MapMessage(MessagesOf(response.value)[i], now)
  {
    if response.None? then Err(ArgumentNull("agentRunResponse"))
    else
      var rr := response.value;
      var msgs := MessagesOf(rr);
      Ok(AgentResponse(
        OrEmpty(rr.agentId),
        if rr.createdAt.Some? then rr.createdAt.value else now,
        MapUsage(rr.usage),
        seq(|msgs|, i requires 0 <= i < |msgs| => MapMessage(msgs[i], now))))
  }

  /** One structured message: the structured output rides only on messages
      whose lower-cased role is "assistant". */
  function MapStructuredMessage<T>(msg: ChatMessage, output: Option<T>, now: int): (m: StructuredMessage<T>)
    ensures m.authorName == OrEmpty(msg.authorName) && m.messageId == OrEmpty(msg.messageId)
    ensures m.createdAt == (if msg.createdAt.Some? then msg.createdAt.value else now)
    ensures m.role == MapMessageRole(Some(msg.role))
    ensures m.structuredOutput == (if ToLower(msg.role) == "assistant" then output else None)
  {
    StructuredMessage(OrEmpty(msg.authorName),
                      if msg.createdAt.Some? then msg.createdAt.value else now,
                      MapMessageRole(Some(msg.role)),
                      OrEmpty(msg.messageId),
                      if ToLower(msg.role) == "assistant" then output else None)
  }

  /** ConvertToStructuredAgentResponse of the SO ThreadService. */
  function ConvertToStructuredAgentResponse<T>(response: RunResponse, thread: Option<ThreadState.SerializedThread>,
                                               output: Option<T>, now: int): (r: StructuredAgentResponse<T>)
    ensures r.agentId == OrEmpty(response.agentId)
    ensures r.threadId == ThreadState.ExtractThreadId(thread)
    ensures r.createdAt == (if response.createdAt.Some? then response.createdAt.value else now)
    ensures r.usage == MapUsage(response.usage)
    ensures |r.messages| == |MessagesOf(response)|
    ensures forall i :: 0 <= i < |r.messages| ==> r.messages[i] == MapStructuredMessage(MessagesOf(response)[i], output, now)
  {
    var msgs := MessagesOf(response);
    StructuredAgentResponse(
      OrEmpty(response.agentId),
      ThreadState.ExtractThreadId(thread),
      if response.createdAt.Some? then response.createdAt.value else now,
      seq(|msgs|, i requires 0 <= i < |msgs| => MapStructuredMessage(msgs[i], output, now)),
      MapUsage(response.usage))
  }

  /** A message carries the structured output exactly when it is mapped to
      the Assistant role. */
  lemma StructuredOutputOnlyOnAssistant<T>(response: RunResponse, thread: Option<ThreadState.SerializedThread>,
                                           output: Option<T>, now: int, i: nat)
    requires output.Some?
    requires i < |MessagesOf(response)|
    ensures var m := ConvertToStructuredAgentResponse(response, thread, output, now).messages[i];
            (m.structuredOutput.Some? <==> m.role == Assistant)
            && (m.structuredOutput.Some? ==> m.structuredOutput == output)
  {
  }
}
