/** Translating a Chat Completions request for an Anthropic provider and reading it back. */
module ExchangeFidelity {
  import opened Common
  import opened Text
  import opened Json
  import opened Exchange

  // ---- what the Chat Completions parser yields ----

  predicate PartFits(role: Role, c: Content) {
    match role
    case System | Developer | User => c.TextPart?
    case Assistant => c.TextPart? || (c.ToolCall? && !IsBlank(c.id) && !IsBlank(c.name))
    case Tool => c.ToolResult?
  }

  predicate MessageFits(m: Message) {
    && (forall i :: 0 <= i < |m.content| ==> PartFits(m.role, m.content[i]))
    && (IsSystem(m) ==> m.content != [])
  }

  predicate ToolFits(t: ToolSpec) { !IsBlank(t.name) }

  /** The shape of a parsed request: each role carries only its own kind of content. */
  predicate Parsed(x: Exchange) {
    && (forall i :: 0 <= i < |x.messages| ==> MessageFits(x.messages[i]))
    && (forall i :: 0 <= i < |x.tools| ==> ToolFits(x.tools[i]))
    && (x.choice.Some? && x.choice.value.Named? ==> !IsBlank(x.choice.value.name))
    && x.parameters.Keys <= OPENAI_PARAMETERS
    && ("stop" in x.parameters ==> StopOk(x.parameters["stop"]))
    && ("response_format" in x.parameters ==> x.parameters["response_format"] == Obj(map["type" := Str("text")]))
    && (x.choice == Some(Required) ==> x.tools != [])
    && (x.parallel.Some? ==> x.tools != [])
  }

  lemma {:induction false} CallsFit(calls: seq<Json>)
    requires ParseCalls(calls).Ok?
    ensures forall i :: 0 <= i < |ParseCalls(calls).value| ==> PartFits(Assistant, ParseCalls(calls).value[i])
  {
    if calls != [] {
      CallsFit(calls[1..]);
    }
  }

  lemma MessageParsedFits(m: Json)
    requires ParseOpenAiMessage(m).Ok?
    ensures MessageFits(ParseOpenAiMessage(m).value)
  {
    var role := ParseRole(m).value;
    if role == Assistant && Get(m, "tool_calls").Some? {
      CallsFit(Get(m, "tool_calls").value.items);
    }
  }

  lemma {:induction false} MessagesParsedFit(ms: seq<Json>)
    requires ParseOpenAiMessages(ms).Ok?
    ensures forall i :: 0 <= i < |ParseOpenAiMessages(ms).value| ==> MessageFits(ParseOpenAiMessages(ms).value[i])
  {
    if ms != [] {
      MessageParsedFits(ms[0]);
      MessagesParsedFit(ms[1..]);
    }
  }

  lemma {:induction false} ToolsParsedFit(tools: seq<Json>, names: set<string>)
    requires ParseOpenAiTools(tools, names).Ok?
    ensures forall i :: 0 <= i < |ParseOpenAiTools(tools, names).value| ==> ToolFits(ParseOpenAiTools(tools, names).value[i])
  {
    if tools != [] {
      ToolsParsedFit(tools[1..], names + {ParseOpenAiTool(tools[0]).value.name});
    }
  }

  /** Every accepted Chat Completions request has that shape. */
  lemma AcceptedIsParsed(r: ChatRequest)
    requires FromOpenAi(r).Ok?
    ensures Parsed(FromOpenAi(r).value)
  {
    MessagesParsedFit(r.messages);
    if "tools" in r.extra {
      ToolsParsedFit(r.extra["tools"].items, {});
    }
  }

  // ---- the normal form ----

  predicate IsObject(v: Option<Json>) { v.Some? && v.value.Obj? }

  function NormalPart(codec: Codec, c: Content): Content {
    if c.ToolCall? && IsObject(codec.decode(c.arguments))
    then c.(arguments := codec.encode(codec.decode(c.arguments).value)) else c
  }

  function NormalParts(codec: Codec, content: seq<Content>): seq<Content> {
    if content == [] then [] else [NormalPart(codec, content[0])] + NormalParts(codec, content[1..])
  }

  function NormalMessage(codec: Codec, m: Message): Message {
    Message(if m.role.Tool? then User else m.role, NormalParts(codec, m.content))
  }

  function NormalConversation(codec: Codec, ms: seq<Message>): seq<Message> {
    if ms == [] then []
    else (if IsSystem(ms[0]) then [] else [NormalMessage(codec, ms[0])]) + NormalConversation(codec, ms[1..])
  }

  function NormalSystem(ms: seq<Message>): seq<Message> {
    if SystemParts(ms) == [] then [] else [Message(System, [TextPart(Join(SystemParts(ms), "\n\n"))])]
  }

  function NormalTools(tools: seq<ToolSpec>): seq<ToolSpec> {
    if tools == [] then [] else [tools[0].(strict := None)] + NormalTools(tools[1..])
  }

  function NormalParameters(p: map<string, Json>): map<string, Json> { WithParameters(map[], p) }

  /** System parts joined, tool messages spoken by the user, disabled tools omitted, an absent choice with a parallel flag made explicit. */
  function Normal(codec: Codec, x: Exchange, model: string, stream: bool): Exchange {
    var disabled := x.choice == Some(NoTools);
    Exchange(
      model, Some(MaxOrDefault(x)), stream,
      NormalSystem(x.messages) + NormalConversation(codec, x.messages),
      if disabled then [] else NormalTools(x.tools),
      if disabled then None else if x.choice.None? && x.parallel.Some? then Some(Auto) else x.choice,
      if disabled then None else x.parallel,
      NormalParameters(x.parameters))
  }

  // ---- messages there and back ----

  predicate PartClean(c: Content) {
    match c
    case TextPart(text) => !IsBlank(text)
    case ToolResult(callId, _) => !IsBlank(callId)
    case ToolCall(_, _, _) => true
  }

  predicate PartsClean(content: seq<Content>) {
    forall i :: 0 <= i < |content| ==> PartClean(content[i])
  }

  /** No blank text and no blank call id outside the system messages. */
  predicate Clean(ms: seq<Message>) {
    forall i :: 0 <= i < |ms| && !IsSystem(ms[i]) ==> PartsClean(ms[i].content)
  }

  predicate ArgumentsOk(codec: Codec, content: seq<Content>) {
    forall i :: 0 <= i < |content| && content[i].ToolCall? ==> IsObject(codec.decode(content[i].arguments))
  }

  /** Every tool call carries the text of a JSON object. */
  predicate CallsAreObjects(codec: Codec, ms: seq<Message>) {
    forall i :: 0 <= i < |ms| && !IsSystem(ms[i]) ==> ArgumentsOk(codec, ms[i].content)
  }

  predicate PartsFit(role: Role, content: seq<Content>) {
    forall i :: 0 <= i < |content| ==> PartFits(role, content[i])
  }

  function Rendered(codec: Codec, role: Role, content: seq<Content>): Result<seq<Json>> {
    match role
    case Assistant => RenderAssistant(codec, content)
    case Tool => Ok(RenderResults(content))
    case _ => Ok(RenderUser(content))
  }

  lemma Snoc<T>(s: seq<T>)
    requires s != []
    ensures s == [s[0]] + s[1..]
  {
  }

  /** Rendering content succeeds iff its tool calls carry objects; reading it back succeeds iff it is clean, and gives the normal form. */
  lemma {:induction false} ContentRoundTrip(codec: Codec, role: Role, content: seq<Content>)
    requires PartsFit(role, content)
    ensures Rendered(codec, role, content).Ok? <==> ArgumentsOk(codec, content)
    ensures Rendered(codec, role, content).Ok? ==>
              ParseBlocks(codec, Rendered(codec, role, content).value)
              == if PartsClean(content) then Ok(NormalParts(codec, content)) else Invalid
  {
    if content != [] {
      Snoc(content);
      ContentRoundTrip(codec, role, content[1..]);
      assert PartsClean(content) <==> PartClean(content[0]) && PartsClean(content[1..]);
      var c := content[0];
      assert PartFits(role, c);
      assert ArgumentsOk(codec, content) <==> (c.ToolCall? ==> IsObject(codec.decode(c.arguments))) && ArgumentsOk(codec, content[1..]);
      if Rendered(codec, role, content).Ok? {
        var blocks := Rendered(codec, role, content).value;
        var rest := Rendered(codec, role, content[1..]).value;
        assert blocks == [blocks[0]] + rest && blocks[1..] == rest;
        PartRoundTrip(codec, c, blocks[0]);
      }
    }
  }

  lemma PartRoundTrip(codec: Codec, c: Content, block: Json)
    requires (c.ToolCall? ==> !IsBlank(c.id) && !IsBlank(c.name) && IsObject(codec.decode(c.arguments)))
    requires block == match c
                      case TextPart(text) => TextJson(text)
                      case ToolCall(id, name, arguments) => CallJson(id, name, codec.decode(arguments).value)
                      case ToolResult(callId, content) => ResultJson(callId, content)
    ensures ParseBlock(codec, block) == if PartClean(c) then Ok(NormalPart(codec, c)) else Invalid
  {
  }

  lemma MessageRoundTrip(codec: Codec, m: Message)
    requires MessageFits(m) && !IsSystem(m)
    ensures RenderMessage(codec, m).Ok? <==> ArgumentsOk(codec, m.content)
    ensures RenderMessage(codec, m).Ok? ==>
              ParseAnthropicMessage(codec, RenderMessage(codec, m).value)
              == if PartsClean(m.content) then Ok(NormalMessage(codec, m)) else Invalid
  {
    ContentRoundTrip(codec, m.role, m.content);
  }

  lemma {:induction false} ConversationRoundTrip(codec: Codec, ms: seq<Message>)
    requires forall i :: 0 <= i < |ms| ==> MessageFits(ms[i])
    ensures RenderMessages(codec, ms).Ok? <==> CallsAreObjects(codec, ms)
    ensures RenderMessages(codec, ms).Ok? ==>
              ParseAnthropicMessages(codec, RenderMessages(codec, ms).value)
              == if Clean(ms) then Ok(NormalConversation(codec, ms)) else Invalid
  {
    if ms != [] {
      var m, rest := ms[0], ms[1..];
      Snoc(ms);
      ConversationRoundTrip(codec, rest);
      assert Clean(ms) <==> (IsSystem(m) || PartsClean(m.content)) && Clean(rest);
      assert CallsAreObjects(codec, ms) <==> (IsSystem(m) || ArgumentsOk(codec, m.content)) && CallsAreObjects(codec, rest);
      if IsSystem(m) {
        assert NormalConversation(codec, ms) == NormalConversation(codec, rest);
      } else {
        MessageRoundTrip(codec, m);
        if RenderMessages(codec, ms).Ok? {
          assert RenderMessages(codec, ms).value[1..] == RenderMessages(codec, rest).value;
        }
      }
    }
  }

  // ---- tools and choice there and back ----

  lemma ToolRoundTrip(tool: ToolSpec)
    requires ToolFits(tool)
    ensures ParseAnthropicTool(RenderTool(tool)) == Ok(tool.(strict := None))
  {
  }

  lemma {:induction false} ToolsRoundTrip(tools: seq<ToolSpec>)
    requires forall i :: 0 <= i < |tools| ==> ToolFits(tools[i])
    ensures ParseAnthropicTools(RenderTools(tools)) == Ok(NormalTools(tools))
  {
    if tools != [] {
      ToolsRoundTrip(tools[1..]);
      assert RenderTools(tools)[1..] == RenderTools(tools[1..]);
      assert ToolFits(tools[0]);
      ToolRoundTrip(tools[0]);
    }
  }

  lemma ChoiceRoundTrip(choice: Option<ToolChoice>, parallel: Option<bool>)
    requires choice.Some? && choice.value.Named? ==> !IsBlank(choice.value.name)
    ensures var v := RenderChoice(choice, parallel);
            var disabled := choice == Some(NoTools);
            && Optional(v, ParseAnthropicChoice)
               == Ok(if disabled then None else if choice.None? && parallel.Some? then Some(Auto) else choice)
            && ParallelOf(v) == if disabled then None else parallel
  {
  }

  // ---- the whole request there and back ----

  function BodyExtra(x: Exchange): map<string, Json> { WithTools(NormalParameters(x.parameters), x) }

  lemma LookupInsert(m: map<string, Json>, key: string, v: Option<Json>, j: string)
    ensures Lookup(Insert(m, key, v), j) == if j == key && v.Some? then v else Lookup(m, j)
  {
  }

  lemma LookupParameters(m: map<string, Json>, p: map<string, Json>, j: string)
    ensures Lookup(WithParameters(m, p), j)
            == if j == "stop_sequences" && StopSequences(p).Some? then StopSequences(p)
               else if j in {"temperature", "top_p", "top_k"} && NonNull(p, j).Some? then NonNull(p, j)
               else Lookup(m, j)
  {
    var b1 := Insert(m, "temperature", NonNull(p, "temperature"));
    var b2 := Insert(b1, "top_p", NonNull(p, "top_p"));
    var b3 := Insert(b2, "top_k", NonNull(p, "top_k"));
    LookupInsert(m, "temperature", NonNull(p, "temperature"), j);
    LookupInsert(b1, "top_p", NonNull(p, "top_p"), j);
    LookupInsert(b2, "top_k", NonNull(p, "top_k"), j);
    LookupInsert(b3, "stop_sequences", StopSequences(p), j);
  }

  lemma LookupTools(m: map<string, Json>, x: Exchange, j: string)
    ensures Lookup(WithTools(m, x), j)
            == if j == "tool_choice" && RenderChoice(x.choice, x.parallel).Some? then RenderChoice(x.choice, x.parallel)
               else if j == "tools" && ToolList(x).Some? then ToolList(x)
               else Lookup(m, j)
  {
    LookupInsert(m, "tools", ToolList(x), j);
    LookupInsert(Insert(m, "tools", ToolList(x)), "tool_choice", RenderChoice(x.choice, x.parallel), j);
  }

  lemma LookupBody(x: Exchange, messages: seq<Json>, model: string, stream: bool, j: string)
    ensures var start := BodyStart(x, messages, model, stream);
            Lookup(WithTools(WithParameters(start, x.parameters), x), j)
            == if j in RESERVED then Lookup(start, j) else Lookup(BodyExtra(x), j)
    ensures j in RESERVED ==> Lookup(BodyExtra(x), j) == None
  {
    var start := BodyStart(x, messages, model, stream);
    LookupTools(WithParameters(start, x.parameters), x, j);
    LookupParameters(start, x.parameters, j);
    LookupTools(NormalParameters(x.parameters), x, j);
    LookupParameters(map[], x.parameters, j);
  }

  lemma BodyReads(codec: Codec, x: Exchange, model: string, stream: bool)
    requires ToAnthropic(codec, x, model, stream).Ok?
    ensures ReadAnthropic(ToAnthropic(codec, x, model, stream).value)
            == Ok(AnthropicRequest(model, Some(MaxOrDefault(x)), RenderMessages(codec, x.messages).value,
                                   SystemText(x.messages), Some(stream), BodyExtra(x)))
  {
    var messages := RenderMessages(codec, x.messages).value;
    var body := ToAnthropic(codec, x, model, stream).value;
    forall j ensures Lookup(body.fields, j)
                     == if j in RESERVED then Lookup(BodyStart(x, messages, model, stream), j) else Lookup(BodyExtra(x), j)
             ensures j in RESERVED ==> Lookup(BodyExtra(x), j) == None
    {
      LookupBody(x, messages, model, stream, j);
    }
    BodyFieldsRead(x, messages, model, stream, body);
  }

  lemma BodyFieldsRead(x: Exchange, messages: seq<Json>, model: string, stream: bool, body: Json)
    requires body.Obj?
    requires forall j :: Lookup(body.fields, j)
                         == if j in RESERVED then Lookup(BodyStart(x, messages, model, stream), j) else Lookup(BodyExtra(x), j)
    requires forall j :: j in RESERVED ==> Lookup(BodyExtra(x), j) == None
    ensures ReadAnthropic(body)
            == Ok(AnthropicRequest(model, Some(MaxOrDefault(x)), messages, SystemText(x.messages), Some(stream), BodyExtra(x)))
  {
    var start, e := BodyStart(x, messages, model, stream), BodyExtra(x);
    assert forall j :: Get(body, j) == Lookup(body.fields, j);
    assert Get(body, "model") == Some(Str(model)) && Get(body, "max_tokens") == Some(Int(MaxOrDefault(x)));
    assert Get(body, "messages") == Some(Arr(messages)) && Get(body, "stream") == Some(Bool(stream));
    assert Get(body, "system") == SystemText(x.messages);
    var extra := Unreserved(body.fields);
    forall k ensures Lookup(extra, k) == Lookup(e, k) { }
    assert forall k :: k in extra <==> Lookup(extra, k).Some?;
    assert forall k :: k in e <==> Lookup(e, k).Some?;
    assert extra == e;
  }

  lemma ExtraReads(x: Exchange)
    requires Parsed(x)
    ensures var e := BodyExtra(x);
            && Lookup(e, "tools") == ToolList(x) && Lookup(e, "tool_choice") == RenderChoice(x.choice, x.parallel)
            && Keep(e, ANTHROPIC_PARAMETERS) == NormalParameters(x.parameters)
  {
    var e, p := BodyExtra(x), NormalParameters(x.parameters);
    forall j ensures Lookup(Keep(e, ANTHROPIC_PARAMETERS), j) == Lookup(p, j)
    {
      LookupTools(p, x, j);
      LookupParameters(map[], x.parameters, j);
    }
    assert forall k :: k in p <==> Lookup(p, k).Some?;
    assert forall k :: k in Keep(e, ANTHROPIC_PARAMETERS) <==> Lookup(Keep(e, ANTHROPIC_PARAMETERS), k).Some?;
    LookupTools(p, x, "tools");
    LookupTools(p, x, "tool_choice");
    LookupParameters(map[], x.parameters, "tools");
    LookupParameters(map[], x.parameters, "tool_choice");
  }

  /**
   For every accepted request, whatever the JSON library does: the Anthropic body is produced exactly when
   every tool call carries a JSON object; it reads back exactly when no text and no call id is blank; and
   what reads back is the normal form.
   */
  lemma RoundTrip(codec: Codec, r: ChatRequest, model: string, stream: bool)
    requires FromOpenAi(r).Ok?
    ensures var x := FromOpenAi(r).value;
            var body := ToAnthropic(codec, x, model, stream);
            && (body.Ok? <==> CallsAreObjects(codec, x.messages))
            && (body.Ok? ==>
                  && ReadAnthropic(body.value).Ok?
                  && FromAnthropic(codec, ReadAnthropic(body.value).value)
                     == if Clean(x.messages) then Ok(Normal(codec, x, model, stream)) else Invalid)
  {
    AcceptedIsParsed(r);
    ParsedRoundTrip(codec, FromOpenAi(r).value, model, stream);
  }

  lemma ParsedRoundTrip(codec: Codec, x: Exchange, model: string, stream: bool)
    requires Parsed(x)
    ensures var body := ToAnthropic(codec, x, model, stream);
            && (body.Ok? <==> CallsAreObjects(codec, x.messages))
            && (body.Ok? ==>
                  && ReadAnthropic(body.value).Ok?
                  && FromAnthropic(codec, ReadAnthropic(body.value).value)
                     == if Clean(x.messages) then Ok(Normal(codec, x, model, stream)) else Invalid)
  {
    ConversationRoundTrip(codec, x.messages);
    if ToAnthropic(codec, x, model, stream).Ok? {
      BodyReads(codec, x, model, stream);
      RequestReads(codec, x, RenderMessages(codec, x.messages).value, model, stream);
    }
  }

  lemma RequestReads(codec: Codec, x: Exchange, messages: seq<Json>, model: string, stream: bool)
    requires Parsed(x)
    requires ParseAnthropicMessages(codec, messages)
             == if Clean(x.messages) then Ok(NormalConversation(codec, x.messages)) else Invalid
    ensures FromAnthropic(codec, AnthropicRequest(model, Some(MaxOrDefault(x)), messages,
                                                  SystemText(x.messages), Some(stream), BodyExtra(x)))
            == if Clean(x.messages) then Ok(Normal(codec, x, model, stream)) else Invalid
  {
    ExtraReads(x);
    SystemReads(x.messages);
    ToolListReads(x);
    ChoiceRoundTrip(x.choice, x.parallel);
  }

  lemma SystemReads(ms: seq<Message>)
    ensures SystemMessages(SystemText(ms)) == Ok(NormalSystem(ms))
  {
  }

  lemma ToolListReads(x: Exchange)
    requires forall i :: 0 <= i < |x.tools| ==> ToolFits(x.tools[i])
    ensures AnthropicTools(ToolList(x)) == Ok(if x.choice == Some(NoTools) then [] else NormalTools(x.tools))
  {
    ToolsRoundTrip(x.tools);
  }

  // ---- a blank text does not come back ----

  const BLANK_MESSAGE: Json := Obj(map["role" := Str("user"), "content" := Str(" ")])
  const BLANK_REQUEST: ChatRequest := ChatRequest("m", [BLANK_MESSAGE], None, None, None, map[])

  lemma BlankIsAccepted()
    ensures FromOpenAi(BLANK_REQUEST).Ok?
    ensures FromOpenAi(BLANK_REQUEST).value.messages == [Message(User, [TextPart(" ")])]
  {
    assert Trim("m") == "m";
    assert ShapeOk(BLANK_REQUEST);
    assert GetStr(BLANK_MESSAGE, "role") == Some("user") && Get(BLANK_MESSAGE, "content") == Some(Str(" "));
    assert ParseRole(BLANK_MESSAGE) == Ok(User) && OnlyKeys(BLANK_MESSAGE, MessageKeys(User));
    assert LeadContent(BLANK_MESSAGE, User) == Ok([TextPart(" ")]) && CallContent(BLANK_MESSAGE, User) == Ok([]);
    assert [TextPart(" ")] + [] == [TextPart(" ")];
    assert ParseOpenAiMessage(BLANK_MESSAGE) == Ok(Message(User, [TextPart(" ")]));
    assert BLANK_REQUEST.messages[1..] == [] && ParseOpenAiMessages([]) == Ok([]);
    var m := Message(User, [TextPart(" ")]);
    assert [m] + [] == [m];
    assert ParseOpenAiMessages(BLANK_REQUEST.messages) == Ok([m]);
  }

  /** An accepted request whose text is one space: the Anthropic body is produced, and the gateway's own parser refuses it. */
  lemma BlankTextDoesNotReadBack(codec: Codec, model: string, stream: bool)
    ensures FromOpenAi(BLANK_REQUEST).Ok?
    ensures var body := ToAnthropic(codec, FromOpenAi(BLANK_REQUEST).value, model, stream);
            body.Ok? && ReadAnthropic(body.value).Ok? && FromAnthropic(codec, ReadAnthropic(body.value).value) == Invalid
  {
    BlankIsAccepted();
    var x := FromOpenAi(BLANK_REQUEST).value;
    assert !PartClean(x.messages[0].content[0]) && !IsSystem(x.messages[0]);
    RoundTrip(codec, BLANK_REQUEST, model, stream);
  }
}
