/**
 The exchange representation between chat protocols: the parser for Chat Completions requests, the
 fidelity check, the renderer for Anthropic requests and the parser for Anthropic requests.
 */
module Exchange {
  import opened Common
  import opened Text
  import opened Json

  datatype Result<+T> = Ok(value: T) | Invalid {
    predicate IsFailure() { Invalid? }
    function PropagateFailure<U>(): Result<U>
      requires Invalid?
    {
      Invalid
    }
    function Extract(): T
      requires Ok?
    {
      value
    }
  }

  datatype Role = System | Developer | User | Assistant | Tool

  datatype Content =
    | TextPart(text: string)
    | ToolCall(id: string, name: string, arguments: string)
    | ToolResult(callId: string, content: string)

  datatype Message = Message(role: Role, content: seq<Content>)

  datatype ToolSpec = ToolSpec(name: string, description: Option<string>, schema: Json, strict: Option<bool>)

  datatype ToolChoice = NoTools | Auto | Required | Named(name: string)

  datatype ChatRequest = ChatRequest(
    model: string,
    messages: seq<Json>,
    maxCompletionTokens: Option<U64>,
    maxTokens: Option<U64>,
    stream: Option<bool>,
    extra: map<string, Json>)

  datatype AnthropicRequest = AnthropicRequest(
    model: string,
    maxTokens: Option<U64>,
    messages: seq<Json>,
    system: Option<Json>,
    stream: Option<bool>,
    extra: map<string, Json>)

  datatype Exchange = Exchange(
    model: string,
    maxTokens: Option<U64>,
    stream: bool,
    messages: seq<Message>,
    tools: seq<ToolSpec>,
    choice: Option<ToolChoice>,
    parallel: Option<bool>,
    parameters: map<string, Json>)

  const DEFAULT_MAX_TOKENS: U64 := 4096

  function RequiredString(v: Json, key: string): Result<string> {
    match GetStr(v, key)
    case Some(s) => if IsBlank(s) then Invalid else Ok(s)
    case None => Invalid
  }

  predicate OnlyKeys(v: Json, keys: set<string>) {
    v.Obj? && v.fields.Keys <= keys
  }

  // ---- Chat Completions messages ----

  function TextBlock(block: Json): Result<string> {
    if OnlyKeys(block, {"type", "text"}) && GetStr(block, "type") == Some("text") && GetStr(block, "text").Some?
    then Ok(GetStr(block, "text").value) else Invalid
  }

  function TextOfBlocks(blocks: seq<Json>): Result<string> {
    if blocks == [] then Ok("")
    else
      var first :- TextBlock(blocks[0]);
      var rest :- TextOfBlocks(blocks[1..]);
      Ok(first + rest)
  }

  function OpenAiText(v: Json): Result<string> {
    match v
    case Str(s) => Ok(s)
    case Arr(blocks) => TextOfBlocks(blocks)
    case _ => Invalid
  }

  function ParseCall(call: Json): Result<Content> {
    if !OnlyKeys(call, {"id", "type", "function"}) || GetStr(call, "type") != Some("function")
       || Get(call, "function").None? || !OnlyKeys(Get(call, "function").value, {"name", "arguments"}) then Invalid
    else
      var function_ := Get(call, "function").value;
      var id :- RequiredString(call, "id");
      var name :- RequiredString(function_, "name");
      var arguments :- RequiredString(function_, "arguments");
      Ok(ToolCall(id, name, arguments))
  }

  function ParseCalls(calls: seq<Json>): Result<seq<Content>> {
    if calls == [] then Ok([])
    else
      var first :- ParseCall(calls[0]);
      var rest :- ParseCalls(calls[1..]);
      Ok([first] + rest)
  }

  function ParseRole(v: Json): Result<Role> {
    match GetStr(v, "role")
    case Some("system") => Ok(System)
    case Some("developer") => Ok(Developer)
    case Some("user") => Ok(User)
    case Some("assistant") => Ok(Assistant)
    case Some("tool") => Ok(Tool)
    case _ => Invalid
  }

  function MessageKeys(role: Role): set<string> {
    match role
    case Assistant => {"role", "content", "tool_calls"}
    case Tool => {"role", "content", "tool_call_id"}
    case _ => {"role", "content"}
  }

  function OrNull(v: Option<Json>): Json { if v.Some? then v.value else Null }

  /** The content before any tool calls: a tool result, or the text if there is some. */
  function LeadContent(m: Json, role: Role): Result<seq<Content>> {
    if role == Tool then
      if GetStr(m, "tool_call_id").None? then Invalid
      else
        var text :- OpenAiText(OrNull(Get(m, "content")));
        Ok([ToolResult(GetStr(m, "tool_call_id").value, text)])
    else if OrNull(Get(m, "content")).Null? then Ok([])
    else
      var text :- OpenAiText(Get(m, "content").value);
      Ok(if text == "" then [] else [TextPart(text)])
  }

  function CallContent(m: Json, role: Role): Result<seq<Content>> {
    if role == Assistant && Get(m, "tool_calls").Some? then
      match Get(m, "tool_calls").value
      case Arr(calls) => ParseCalls(calls)
      case _ => Invalid
    else Ok([])
  }

  function ParseOpenAiMessage(m: Json): Result<Message> {
    if !m.Obj? then Invalid
    else
      var role :- ParseRole(m);
      if !OnlyKeys(m, MessageKeys(role)) then Invalid
      else
        var lead :- LeadContent(m, role);
        var calls :- CallContent(m, role);
        if lead + calls == [] && role != Assistant then Invalid else Ok(Message(role, lead + calls))
  }

  function ParseOpenAiMessages(ms: seq<Json>): Result<seq<Message>> {
    if ms == [] then Ok([])
    else
      var first :- ParseOpenAiMessage(ms[0]);
      var rest :- ParseOpenAiMessages(ms[1..]);
      Ok([first] + rest)
  }

  // ---- Chat Completions tools ----

  predicate NameChar(c: char) {
    'a' <= c <= 'z' || 'A' <= c <= 'Z' || '0' <= c <= '9' || c == '_' || c == '-'
  }

  predicate ToolNameOk(name: string) {
    1 <= |name| <= 64 && forall i :: 0 <= i < |name| ==> NameChar(name[i])
  }

  const EMPTY_SCHEMA := Obj(map["type" := Str("object"), "properties" := Obj(map[])])

  function ParseOpenAiTool(tool: Json): Result<ToolSpec> {
    if !OnlyKeys(tool, {"type", "function"}) || GetStr(tool, "type") != Some("function")
       || Get(tool, "function").None?
       || !OnlyKeys(Get(tool, "function").value, {"name", "description", "parameters", "strict"}) then Invalid
    else
      var f := Get(tool, "function").value;
      var name :- RequiredString(f, "name");
      if !ToolNameOk(name) || (Get(f, "description").Some? && GetStr(f, "description").None?)
         || (Get(f, "parameters").Some? && !Get(f, "parameters").value.Obj?)
         || (Get(f, "strict").Some? && !Get(f, "strict").value.Bool?) then Invalid
      else
        var schema := if Get(f, "parameters").Some? then Get(f, "parameters").value else EMPTY_SCHEMA;
        var strict := if Get(f, "strict").Some? then Some(Get(f, "strict").value.b) else None;
        Ok(ToolSpec(name, GetStr(f, "description"), schema, strict))
  }

  function ParseOpenAiTools(tools: seq<Json>, names: set<string>): Result<seq<ToolSpec>> {
    if tools == [] then Ok([])
    else
      var first :- ParseOpenAiTool(tools[0]);
      if first.name in names then Invalid
      else
        var rest :- ParseOpenAiTools(tools[1..], names + {first.name});
        Ok([first] + rest)
  }

  function OpenAiTools(v: Option<Json>): Result<seq<ToolSpec>> {
    match v
    case None => Ok([])
    case Some(Arr(tools)) => ParseOpenAiTools(tools, {})
    case _ => Invalid
  }

  function ParseOpenAiChoice(v: Json): Result<ToolChoice> {
    if v.Str? then
      if v.s == "none" then Ok(NoTools) else if v.s == "auto" then Ok(Auto)
      else if v.s == "required" then Ok(Required) else Invalid
    else if !OnlyKeys(v, {"type", "function"}) || Get(v, "function").None?
            || !OnlyKeys(Get(v, "function").value, {"name"}) || GetStr(v, "type") != Some("function") then Invalid
    else
      var name :- RequiredString(Get(v, "function").value, "name");
      Ok(Named(name))
  }

  function Optional<T>(v: Option<Json>, parse: Json -> Result<T>): Result<Option<T>> {
    match v
    case None => Ok(None)
    case Some(j) =>
      var t :- parse(j);
      Ok(Some(t))
  }

  function ParseBool(v: Json): Result<bool> { if v.Bool? then Ok(v.b) else Invalid }

  // ---- Chat Completions requests ----

  const SUPPORTED_FIELDS := {"temperature", "top_p", "presence_penalty", "frequency_penalty", "seed", "stop",
                             "tools", "tool_choice", "parallel_tool_calls", "response_format", "stream_options", "n"}
  const OPENAI_PARAMETERS := {"temperature", "top_p", "presence_penalty", "frequency_penalty", "seed", "stop",
                              "response_format", "stream_options", "n"}
  const ANTHROPIC_PARAMETERS := {"temperature", "top_p", "top_k", "presence_penalty", "frequency_penalty", "seed",
                                 "stop_sequences"}

  predicate NumberOrNull(extra: map<string, Json>, key: string) {
    key in extra ==> extra[key].Null? || IsNumber(extra[key])
  }

  predicate StopOk(stop: Json) {
    || stop.Null? || stop.Str?
    || (stop.Arr? && 1 <= |stop.items| <= 4 && forall i :: 0 <= i < |stop.items| ==> stop.items[i].Str?)
  }

  function RequestedMax(r: ChatRequest): Option<U64> {
    if r.maxCompletionTokens.Some? then r.maxCompletionTokens else r.maxTokens
  }

  predicate ShapeOk(r: ChatRequest) {
    && !IsBlank(r.model) && r.messages != []
    && (r.maxCompletionTokens.Some? && r.maxTokens.Some? ==> r.maxCompletionTokens == r.maxTokens)
    && RequestedMax(r) != Some(0)
    && r.extra.Keys <= SUPPORTED_FIELDS
    && ("n" in r.extra ==> r.extra["n"] == Int(1))
    && ("stream_options" in r.extra ==>
          && r.stream == Some(true) && OnlyKeys(r.extra["stream_options"], {"include_usage"})
          && (Get(r.extra["stream_options"], "include_usage").Some? ==>
                Get(r.extra["stream_options"], "include_usage").value.Bool?))
    && ("response_format" in r.extra ==> r.extra["response_format"] == Obj(map["type" := Str("text")]))
    && NumberOrNull(r.extra, "temperature") && NumberOrNull(r.extra, "top_p")
    && NumberOrNull(r.extra, "presence_penalty") && NumberOrNull(r.extra, "frequency_penalty")
    && ("seed" in r.extra ==> r.extra["seed"].Null? || IsI64(r.extra["seed"]) || IsU64(r.extra["seed"]))
    && ("stop" in r.extra ==> StopOk(r.extra["stop"]))
  }

  function Lookup(m: map<string, Json>, key: string): Option<Json> { if key in m then Some(m[key]) else None }

  function Keep(m: map<string, Json>, keys: set<string>): map<string, Json> {
    map k | k in m && k in keys :: m[k]
  }

  predicate ChoiceOk(choice: Option<ToolChoice>, tools: seq<ToolSpec>) {
    match choice
    case Some(Named(name)) => exists i :: 0 <= i < |tools| && tools[i].name == name
    case Some(Required) => tools != []
    case _ => true
  }

  function FromOpenAi(r: ChatRequest): Result<Exchange> {
    if !ShapeOk(r) then Invalid
    else
      var messages :- ParseOpenAiMessages(r.messages);
      var tools :- OpenAiTools(Lookup(r.extra, "tools"));
      var choice :- Optional(Lookup(r.extra, "tool_choice"), ParseOpenAiChoice);
      var parallel :- Optional(Lookup(r.extra, "parallel_tool_calls"), ParseBool);
      if !ChoiceOk(choice, tools) || (parallel.Some? && tools == []) then Invalid
      else
        Ok(Exchange(r.model, RequestedMax(r), r.stream == Some(true), messages, tools, choice, parallel,
                    Keep(r.extra, OPENAI_PARAMETERS)))
  }

  // ---- the fidelity check ----

  predicate IsSystem(m: Message) { m.role.System? || m.role.Developer? }

  predicate NotNull(parameters: map<string, Json>, key: string) {
    key in parameters && !parameters[key].Null?
  }

  predicate ParametersFaithful(x: Exchange) {
    && !NotNull(x.parameters, "presence_penalty") && !NotNull(x.parameters, "frequency_penalty")
    && !NotNull(x.parameters, "seed")
    && ("response_format" in x.parameters ==> GetStr(x.parameters["response_format"], "type") == Some("text"))
  }

  predicate NoneStrict(x: Exchange) {
    forall i :: 0 <= i < |x.tools| ==> x.tools[i].strict != Some(true)
  }

  /** No system or developer message after the first other message. */
  predicate SystemFirst(ms: seq<Message>) {
    forall i, j :: 0 <= i < j < |ms| && !IsSystem(ms[i]) ==> !IsSystem(ms[j])
  }

  predicate FidelityOk(x: Exchange) {
    ParametersFaithful(x) && NoneStrict(x) && SystemFirst(x.messages)
  }

  // ---- rendering for Anthropic ----

  function TextJson(text: string): Json { Obj(map["type" := Str("text"), "text" := Str(text)]) }

  function CallJson(id: string, name: string, input: Json): Json {
    Obj(map["type" := Str("tool_use"), "id" := Str(id), "name" := Str(name), "input" := input])
  }

  function ResultJson(callId: string, content: string): Json {
    Obj(map["type" := Str("tool_result"), "tool_use_id" := Str(callId), "content" := Str(content)])
  }

  function TextsOf(content: seq<Content>): seq<string> {
    if content == [] then []
    else (if content[0].TextPart? then [content[0].text] else []) + TextsOf(content[1..])
  }

  function Instructions(m: Message): seq<string> { if IsSystem(m) then TextsOf(m.content) else [] }

  function SystemParts(ms: seq<Message>): seq<string> {
    if ms == [] then [] else Instructions(ms[0]) + SystemParts(ms[1..])
  }

  function RenderUser(content: seq<Content>): seq<Json> {
    if content == [] then []
    else (if content[0].TextPart? then [TextJson(content[0].text)] else []) + RenderUser(content[1..])
  }

  function RenderResults(content: seq<Content>): seq<Json> {
    if content == [] then []
    else (if content[0].ToolResult? then [ResultJson(content[0].callId, content[0].content)] else [])
         + RenderResults(content[1..])
  }

  function RenderAssistantPart(codec: Codec, c: Content): Result<Json> {
    match c
    case TextPart(text) => Ok(TextJson(text))
    case ToolCall(id, name, arguments) =>
      (match codec.decode(arguments)
       case Some(Obj(fields)) => Ok(CallJson(id, name, Obj(fields)))
       case _ => Invalid)
    case ToolResult(_, _) => Invalid
  }

  function RenderAssistant(codec: Codec, content: seq<Content>): Result<seq<Json>> {
    if content == [] then Ok([])
    else
      var first :- RenderAssistantPart(codec, content[0]);
      var rest :- RenderAssistant(codec, content[1..]);
      Ok([first] + rest)
  }

  function MessageJson(role: string, blocks: seq<Json>): Json {
    Obj(map["role" := Str(role), "content" := Arr(blocks)])
  }

  function RenderMessage(codec: Codec, m: Message): Result<Json>
    requires !IsSystem(m)
  {
    match m.role
    case User => Ok(MessageJson("user", RenderUser(m.content)))
    case Assistant =>
      var blocks :- RenderAssistant(codec, m.content);
      Ok(MessageJson("assistant", blocks))
    case Tool => Ok(MessageJson("user", RenderResults(m.content)))
  }

  /** System messages are hoisted out; the others keep their order. */
  function RenderMessages(codec: Codec, ms: seq<Message>): Result<seq<Json>> {
    if ms == [] then Ok([])
    else if IsSystem(ms[0]) then RenderMessages(codec, ms[1..])
    else
      var first :- RenderMessage(codec, ms[0]);
      var rest :- RenderMessages(codec, ms[1..]);
      Ok([first] + rest)
  }

  function RenderTool(tool: ToolSpec): Json {
    Obj(map["name" := Str(tool.name),
            "description" := if tool.description.Some? then Str(tool.description.value) else Null,
            "input_schema" := tool.schema])
  }

  function RenderTools(tools: seq<ToolSpec>): seq<Json> {
    if tools == [] then [] else [RenderTool(tools[0])] + RenderTools(tools[1..])
  }

  function ChoiceFields(choice: ToolChoice): map<string, Json>
    requires !choice.NoTools?
  {
    match choice
    case Auto => map["type" := Str("auto")]
    case Required => map["type" := Str("any")]
    case Named(name) => map["type" := Str("tool"), "name" := Str(name)]
  }

  function RenderChoice(choice: Option<ToolChoice>, parallel: Option<bool>): Option<Json> {
    if choice == Some(NoTools) || (choice.None? && parallel.None?) then None
    else
      var fields := ChoiceFields(if choice.Some? then choice.value else Auto);
      Some(Obj(if parallel.Some? then fields["disable_parallel_tool_use" := Bool(!parallel.value)] else fields))
  }

  function Insert(body: map<string, Json>, key: string, v: Option<Json>): map<string, Json> {
    if v.Some? then body[key := v.value] else body
  }

  function NonNull(parameters: map<string, Json>, key: string): Option<Json> {
    if NotNull(parameters, key) then Some(parameters[key]) else None
  }

  function StopSequences(parameters: map<string, Json>): Option<Json> {
    if !NotNull(parameters, "stop") then None
    else if parameters["stop"].Str? then Some(Arr([parameters["stop"]]))
    else Some(parameters["stop"])
  }

  function SystemText(ms: seq<Message>): Option<Json> {
    if SystemParts(ms) == [] then None else Some(Str(Join(SystemParts(ms), "\n\n")))
  }

  function ToolList(x: Exchange): Option<Json> {
    if x.tools == [] || x.choice == Some(NoTools) then None else Some(Arr(RenderTools(x.tools)))
  }

  function MaxOrDefault(x: Exchange): U64 {
    if x.maxTokens.Some? then x.maxTokens.value else DEFAULT_MAX_TOKENS
  }

  function BodyStart(x: Exchange, messages: seq<Json>, model: string, stream: bool): map<string, Json> {
    Insert(map["model" := Str(model), "max_tokens" := Int(MaxOrDefault(x)), "messages" := Arr(messages), "stream" := Bool(stream)],
           "system", SystemText(x.messages))
  }

  function WithParameters(body: map<string, Json>, p: map<string, Json>): map<string, Json> {
    var b1 := Insert(body, "temperature", NonNull(p, "temperature"));
    var b2 := Insert(b1, "top_p", NonNull(p, "top_p"));
    var b3 := Insert(b2, "top_k", NonNull(p, "top_k"));
    Insert(b3, "stop_sequences", StopSequences(p))
  }

  function WithTools(body: map<string, Json>, x: Exchange): map<string, Json> {
    Insert(Insert(body, "tools", ToolList(x)), "tool_choice", RenderChoice(x.choice, x.parallel))
  }

  function ToAnthropic(codec: Codec, x: Exchange, model: string, stream: bool): Result<Json> {
    var messages :- RenderMessages(codec, x.messages);
    Ok(Obj(WithTools(WithParameters(BodyStart(x, messages, model, stream), x.parameters), x)))
  }

  // ---- parsing Anthropic requests ----

  const RESERVED := {"model", "max_tokens", "messages", "system", "stream"}

  function Unreserved(fields: map<string, Json>): map<string, Json> {
    map k | k in fields && k !in RESERVED :: fields[k]
  }

  /** The request as its JSON body is read: named fields, everything else in `extra`. */
  function ReadAnthropic(body: Json): Result<AnthropicRequest> {
    if GetStr(body, "model").None? then Invalid
    else
      var maxTokens := OrNull(Get(body, "max_tokens"));
      var messages := if Get(body, "messages").Some? then Get(body, "messages").value else Arr([]);
      var system := OrNull(Get(body, "system"));
      var stream := OrNull(Get(body, "stream"));
      if !(maxTokens.Null? || IsU64(maxTokens)) || !messages.Arr? || !(stream.Null? || stream.Bool?) then Invalid
      else
        Ok(AnthropicRequest(
             GetStr(body, "model").value,
             if maxTokens.Null? then None else Some(maxTokens.i),
             messages.items,
             if system.Null? then None else Some(system),
             if stream.Null? then None else Some(stream.b),
             Unreserved(body.fields)))
  }

  function AnthropicText(v: Json): Result<string>
    decreases v, 1
  {
    match v
    case Str(s) => Ok(s)
    case Arr(blocks) => AnthropicBlocksText(blocks)
    case _ => Invalid
  }

  function AnthropicBlocksText(blocks: seq<Json>): Result<string>
    decreases blocks, 0
  {
    if blocks == [] then Ok("")
    else
      var first :- AnthropicBlockText(blocks[0]);
      var rest :- AnthropicBlocksText(blocks[1..]);
      Ok(first + rest)
  }

  function AnthropicBlockText(block: Json): Result<string>
    decreases block, 0
  {
    match GetStr(block, "type")
    case Some("text") => Ok(if GetStr(block, "text").Some? then GetStr(block, "text").value else "")
    case Some("tool_result") =>
      if "content" in block.fields then AnthropicText(block.fields["content"]) else Invalid
    case _ => Invalid
  }

  function ParseBlock(codec: Codec, block: Json): Result<Content> {
    match GetStr(block, "type")
    case Some("text") =>
      var text :- RequiredString(block, "text");
      Ok(TextPart(text))
    case Some("tool_use") =>
      var id :- RequiredString(block, "id");
      var name :- RequiredString(block, "name");
      Ok(ToolCall(id, name, codec.encode(if Get(block, "input").Some? then Get(block, "input").value else Obj(map[]))))
    case Some("tool_result") =>
      var callId :- RequiredString(block, "tool_use_id");
      var content :- AnthropicText(OrNull(Get(block, "content")));
      Ok(ToolResult(callId, content))
    case _ => Invalid
  }

  function ParseBlocks(codec: Codec, blocks: seq<Json>): Result<seq<Content>> {
    if blocks == [] then Ok([])
    else
      var first :- ParseBlock(codec, blocks[0]);
      var rest :- ParseBlocks(codec, blocks[1..]);
      Ok([first] + rest)
  }

  function AnthropicRole(m: Json): Result<Role> {
    match GetStr(m, "role")
    case Some("user") => Ok(User)
    case Some("assistant") => Ok(Assistant)
    case _ => Invalid
  }

  function ParseAnthropicMessage(codec: Codec, m: Json): Result<Message> {
    var role :- AnthropicRole(m);
    match OrNull(Get(m, "content"))
    case Str(text) => Ok(Message(role, [TextPart(text)]))
    case Arr(blocks) =>
      var content :- ParseBlocks(codec, blocks);
      Ok(Message(role, content))
    case _ => Invalid
  }

  function ParseAnthropicMessages(codec: Codec, ms: seq<Json>): Result<seq<Message>> {
    if ms == [] then Ok([])
    else
      var first :- ParseAnthropicMessage(codec, ms[0]);
      var rest :- ParseAnthropicMessages(codec, ms[1..]);
      Ok([first] + rest)
  }

  function ParseAnthropicTool(tool: Json): Result<ToolSpec> {
    var name :- RequiredString(tool, "name");
    var schema := if Get(tool, "input_schema").Some? then Get(tool, "input_schema").value else EMPTY_SCHEMA;
    Ok(ToolSpec(name, GetStr(tool, "description"), schema, None))
  }

  function ParseAnthropicTools(tools: seq<Json>): Result<seq<ToolSpec>> {
    if tools == [] then Ok([])
    else
      var first :- ParseAnthropicTool(tools[0]);
      var rest :- ParseAnthropicTools(tools[1..]);
      Ok([first] + rest)
  }

  function AnthropicTools(v: Option<Json>): Result<seq<ToolSpec>> {
    match v
    case None => Ok([])
    case Some(Arr(tools)) => ParseAnthropicTools(tools)
    case _ => Invalid
  }

  function ParseAnthropicChoice(v: Json): Result<ToolChoice> {
    match GetStr(v, "type")
    case Some("none") => Ok(NoTools)
    case Some("auto") => Ok(Auto)
    case Some("any") => Ok(Required)
    case Some("tool") =>
      var name :- RequiredString(v, "name");
      Ok(Named(name))
    case _ => Invalid
  }

  function ParallelOf(choice: Option<Json>): Option<bool> {
    match choice
    case Some(v) =>
      (match Get(v, "disable_parallel_tool_use")
       case Some(Bool(disabled)) => Some(!disabled)
       case _ => None)
    case None => None
  }

  function SystemMessages(system: Option<Json>): Result<seq<Message>> {
    match system
    case None => Ok([])
    case Some(v) =>
      var text :- AnthropicText(v);
      Ok([Message(System, [TextPart(text)])])
  }

  function FromAnthropic(codec: Codec, r: AnthropicRequest): Result<Exchange> {
    var system :- SystemMessages(r.system);
    var messages :- ParseAnthropicMessages(codec, r.messages);
    var tools :- AnthropicTools(Lookup(r.extra, "tools"));
    var choice :- Optional(Lookup(r.extra, "tool_choice"), ParseAnthropicChoice);
    Ok(Exchange(r.model, r.maxTokens, r.stream == Some(true), system + messages, tools, choice,
                ParallelOf(Lookup(r.extra, "tool_choice")), Keep(r.extra, ANTHROPIC_PARAMETERS)))
  }
}
