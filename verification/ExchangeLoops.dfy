/** The parsers and the renderer as loops that push onto a growing result. */
module ExchangeLoops {
  import opened Common
  import opened Text
  import opened Json
  import opened Exchange

  /** A whole result, given what was pushed so far and the result for the remaining input. */
  function Resumed<T>(done: seq<T>, rest: Result<seq<T>>): Result<seq<T>> {
    if rest.Ok? then Ok(done + rest.value) else Invalid
  }

  lemma ResumedEnds<T>(done: seq<T>, whole: Result<seq<T>>)
    ensures Resumed([], whole) == whole
    ensures Resumed(done, Ok([])) == Ok(done)
  {
    if whole.Ok? { assert [] + whole.value == whole.value; }
    assert done + [] == done;
  }

  lemma ResumedStep<T>(done: seq<T>, first: seq<T>, rest: Result<seq<T>>)
    ensures Resumed(done, Resumed(first, rest)) == Resumed(done + first, rest)
  {
    if rest.Ok? { assert done + (first + rest.value) == (done + first) + rest.value; }
  }

  method ReadTextBlocks(blocks: seq<Json>) returns (r: Result<string>)
    ensures r == TextOfBlocks(blocks)
  {
    var text := "";
    var i := 0;
    assert blocks[0..] == blocks;
    ResumedEnds(text, TextOfBlocks(blocks));
    while i < |blocks|
      invariant 0 <= i <= |blocks|
      invariant TextOfBlocks(blocks) == Resumed(text, TextOfBlocks(blocks[i..]))
    {
      assert blocks[i..][1..] == blocks[i + 1..];
      var block := TextBlock(blocks[i]);
      if block.Invalid? {
        return Invalid;
      }
      ResumedStep(text, block.value, TextOfBlocks(blocks[i + 1..]));
      text := text + block.value;
      i := i + 1;
    }
    ResumedEnds(text, Ok(text));
    r := Ok(text);
  }

  method ReadOpenAiText(v: Json) returns (r: Result<string>)
    ensures r == OpenAiText(v)
  {
    if v.Str? {
      return Ok(v.s);
    }
    if !v.Arr? {
      return Invalid;
    }
    r := ReadTextBlocks(v.items);
  }

  method ReadCalls(calls: seq<Json>) returns (r: Result<seq<Content>>)
    ensures r == ParseCalls(calls)
  {
    var content := [];
    var i := 0;
    assert calls[0..] == calls;
    ResumedEnds(content, ParseCalls(calls));
    while i < |calls|
      invariant 0 <= i <= |calls|
      invariant ParseCalls(calls) == Resumed(content, ParseCalls(calls[i..]))
    {
      assert calls[i..][1..] == calls[i + 1..];
      var call := ParseCall(calls[i]);
      if call.Invalid? {
        return Invalid;
      }
      ResumedStep(content, [call.value], ParseCalls(calls[i + 1..]));
      content := content + [call.value];
      i := i + 1;
    }
    ResumedEnds(content, Ok(content));
    r := Ok(content);
  }

  method ReadOpenAiMessage(m: Json) returns (r: Result<Message>)
    ensures r == ParseOpenAiMessage(m)
  {
    if !m.Obj? || ParseRole(m).Invalid? {
      return Invalid;
    }
    var role := ParseRole(m).value;
    if !OnlyKeys(m, MessageKeys(role)) {
      return Invalid;
    }
    var content := [];
    if role == Tool {
      if GetStr(m, "tool_call_id").None? {
        return Invalid;
      }
      var text := ReadOpenAiText(OrNull(Get(m, "content")));
      if text.Invalid? {
        return Invalid;
      }
      content := content + [ToolResult(GetStr(m, "tool_call_id").value, text.value)];
    } else if Get(m, "content").Some? && !Get(m, "content").value.Null? {
      var text := ReadOpenAiText(Get(m, "content").value);
      if text.Invalid? {
        return Invalid;
      }
      if text.value != "" {
        content := content + [TextPart(text.value)];
      }
    }
    assert LeadContent(m, role).Ok? && LeadContent(m, role).value == content;
    if role == Assistant && Get(m, "tool_calls").Some? {
      var calls := Get(m, "tool_calls").value;
      if !calls.Arr? {
        return Invalid;
      }
      var parsed := ReadCalls(calls.items);
      if parsed.Invalid? {
        return Invalid;
      }
      content := content + parsed.value;
    }
    assert CallContent(m, role).Ok? && LeadContent(m, role).value + CallContent(m, role).value == content;
    if content == [] && role != Assistant {
      return Invalid;
    }
    r := Ok(Message(role, content));
  }

  method ReadAnthropicText(v: Json) returns (r: Result<string>)
    ensures r == AnthropicText(v)
    decreases v
  {
    if v.Str? {
      return Ok(v.s);
    }
    if !v.Arr? {
      return Invalid;
    }
    var blocks := v.items;
    var text := "";
    var i := 0;
    assert blocks[0..] == blocks;
    ResumedEnds(text, AnthropicBlocksText(blocks));
    while i < |blocks|
      invariant 0 <= i <= |blocks|
      invariant AnthropicBlocksText(blocks) == Resumed(text, AnthropicBlocksText(blocks[i..]))
    {
      assert blocks[i..][1..] == blocks[i + 1..];
      var block := blocks[i];
      var part: Result<string> := Invalid;
      if GetStr(block, "type") == Some("text") {
        part := Ok(if GetStr(block, "text").Some? then GetStr(block, "text").value else "");
      } else if GetStr(block, "type") == Some("tool_result") && "content" in block.fields {
        part := ReadAnthropicText(block.fields["content"]);
      }
      assert part == AnthropicBlockText(block);
      if part.Invalid? {
        return Invalid;
      }
      ResumedStep(text, part.value, AnthropicBlocksText(blocks[i + 1..]));
      text := text + part.value;
      i := i + 1;
    }
    ResumedEnds(text, Ok(text));
    r := Ok(text);
  }

  method ReadAnthropicBlocks(codec: Codec, blocks: seq<Json>) returns (r: Result<seq<Content>>)
    ensures r == ParseBlocks(codec, blocks)
  {
    var content := [];
    var i := 0;
    assert blocks[0..] == blocks;
    ResumedEnds(content, ParseBlocks(codec, blocks));
    while i < |blocks|
      invariant 0 <= i <= |blocks|
      invariant ParseBlocks(codec, blocks) == Resumed(content, ParseBlocks(codec, blocks[i..]))
    {
      assert blocks[i..][1..] == blocks[i + 1..];
      var part := ParseBlock(codec, blocks[i]);
      if part.Invalid? {
        return Invalid;
      }
      ResumedStep(content, [part.value], ParseBlocks(codec, blocks[i + 1..]));
      content := content + [part.value];
      i := i + 1;
    }
    ResumedEnds(content, Ok(content));
    r := Ok(content);
  }

  method ReadAnthropicMessages(codec: Codec, r: AnthropicRequest) returns (result: Result<seq<Message>>)
    ensures var system := SystemMessages(r.system);
            result == if system.Invalid? then Invalid else Resumed(system.value, ParseAnthropicMessages(codec, r.messages))
  {
    var messages := [];
    if r.system.Some? {
      var text := ReadAnthropicText(r.system.value);
      if text.Invalid? {
        return Invalid;
      }
      messages := messages + [Message(System, [TextPart(text.value)])];
    }
    ghost var system := messages;
    assert SystemMessages(r.system).Ok? && SystemMessages(r.system).value == system;
    var i := 0;
    assert r.messages[0..] == r.messages;
    while i < |r.messages|
      invariant 0 <= i <= |r.messages|
      invariant Resumed(system, ParseAnthropicMessages(codec, r.messages))
             == Resumed(messages, ParseAnthropicMessages(codec, r.messages[i..]))
    {
      assert r.messages[i..][1..] == r.messages[i + 1..];
      var message := ParseAnthropicMessage(codec, r.messages[i]);
      if message.Invalid? {
        return Invalid;
      }
      ResumedStep(messages, [message.value], ParseAnthropicMessages(codec, r.messages[i + 1..]));
      messages := messages + [message.value];
      i := i + 1;
    }
    ResumedEnds(messages, Ok(messages));
    result := Ok(messages);
  }

  /** One pass that hoists the system texts and renders the other messages. */
  lemma SystemStep(ms: seq<Message>, i: nat, system: seq<string>)
    requires i < |ms| && SystemParts(ms) == system + SystemParts(ms[i..])
    ensures SystemParts(ms) == (system + Instructions(ms[i])) + SystemParts(ms[i + 1..])
  {
    assert ms[i..][1..] == ms[i + 1..];
    Associative(system, Instructions(ms[i]), SystemParts(ms[i + 1..]));
  }

  lemma RenderStep(codec: Codec, ms: seq<Message>, i: nat, rendered: seq<Json>)
    requires i < |ms| && !IsSystem(ms[i]) && RenderMessages(codec, ms) == Resumed(rendered, RenderMessages(codec, ms[i..]))
    ensures RenderMessage(codec, ms[i]).Invalid? ==> RenderMessages(codec, ms) == Invalid
    ensures RenderMessage(codec, ms[i]).Ok? ==>
              RenderMessages(codec, ms) == Resumed(rendered + [RenderMessage(codec, ms[i]).value], RenderMessages(codec, ms[i + 1..]))
  {
    assert ms[i..][1..] == ms[i + 1..];
    var message := RenderMessage(codec, ms[i]);
    if message.Ok? {
      ResumedStep(rendered, [message.value], RenderMessages(codec, ms[i + 1..]));
    }
  }

  method RenderConversation(codec: Codec, ms: seq<Message>) returns (system: seq<string>, messages: Result<seq<Json>>)
    ensures messages == RenderMessages(codec, ms)
    ensures messages.Ok? ==> system == SystemParts(ms)
  {
    system := [];
    var rendered := [];
    var i := 0;
    assert ms[0..] == ms;
    ResumedEnds(rendered, RenderMessages(codec, ms));
    while i < |ms|
      invariant 0 <= i <= |ms|
      invariant SystemParts(ms) == system + SystemParts(ms[i..])
      invariant RenderMessages(codec, ms) == Resumed(rendered, RenderMessages(codec, ms[i..]))
    {
      SystemStep(ms, i, system);
      if IsSystem(ms[i]) {
        assert ms[i..][1..] == ms[i + 1..];
        system := system + Instructions(ms[i]);
      } else {
        RenderStep(codec, ms, i, rendered);
        var message := RenderMessage(codec, ms[i]);
        if message.Invalid? {
          messages := Invalid;
          return;
        }
        rendered := rendered + [message.value];
        assert system + Instructions(ms[i]) == system;
      }
      i := i + 1;
    }
    ResumedEnds(rendered, Ok(rendered));
    messages := Ok(rendered);
  }

  method BuildAnthropicRequest(codec: Codec, x: Exchange, model: string, stream: bool) returns (r: Result<Json>)
    ensures r == ToAnthropic(codec, x, model, stream)
  {
    var system, messages := RenderConversation(codec, x.messages);
    if messages.Invalid? {
      return Invalid;
    }
    var body := map["model" := Str(model), "max_tokens" := Int(MaxOrDefault(x)), "messages" := Arr(messages.value),
                    "stream" := Bool(stream)];
    if system != [] {
      body := body["system" := Str(Join(system, "\n\n"))];
    }
    var keys := ["temperature", "top_p", "top_k"];
    assert body == BodyStart(x, messages.value, model, stream);
    var i := 0;
    ghost var start := body;
    while i < |keys|
      invariant 0 <= i <= 3
      invariant body == InsertKeys(start, x.parameters, keys[..i])
    {
      if NotNull(x.parameters, keys[i]) {
        body := body[keys[i] := x.parameters[keys[i]]];
      }
      assert keys[..i + 1][..i] == keys[..i];
      i := i + 1;
    }
    ThreeKeys(start, x.parameters, keys);
    if NotNull(x.parameters, "stop") {
      var stop := x.parameters["stop"];
      body := body["stop_sequences" := if stop.Str? then Arr([stop]) else stop];
    }
    assert body == WithParameters(start, x.parameters);
    if x.tools != [] && x.choice != Some(NoTools) {
      body := body["tools" := Arr(RenderTools(x.tools))];
    }
    var choice := RenderChoice(x.choice, x.parallel);
    if choice.Some? {
      body := body["tool_choice" := choice.value];
    }
    r := Ok(Obj(body));
  }

  lemma ThreeKeys(body: map<string, Json>, p: map<string, Json>, keys: seq<string>)
    requires |keys| == 3
    ensures InsertKeys(body, p, keys[..3])
            == Insert(Insert(Insert(body, keys[0], NonNull(p, keys[0])), keys[1], NonNull(p, keys[1])), keys[2], NonNull(p, keys[2]))
  {
    assert keys[..3][..2] == keys[..2] && keys[..2][..1] == keys[..1] && keys[..1][..0] == [];
    assert InsertKeys(body, p, keys[..1]) == Insert(body, keys[0], NonNull(p, keys[0]));
  }

  function InsertKeys(body: map<string, Json>, p: map<string, Json>, keys: seq<string>): map<string, Json> {
    if keys == [] then body
    else
      var key := keys[|keys| - 1];
      Insert(InsertKeys(body, p, keys[..|keys| - 1]), key, NonNull(p, key))
  }
}
