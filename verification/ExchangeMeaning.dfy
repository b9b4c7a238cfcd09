/** What a request means to a model, and exactly when the translation keeps it. */
module ExchangeMeaning {
  import opened Common
  import opened Text
  import opened Json
  import opened Exchange
  import opened ExchangeFidelity

  datatype Atom =
    | TextAtom(text: string)
    | CallAtom(id: string, name: string, arguments: Option<Json>)
    | ResultAtom(callId: string, content: string)

  datatype Turn = SystemTurn(text: string) | UserTurn(atoms: seq<Atom>) | AssistantTurn(atoms: seq<Atom>)

  datatype ToolMeaning = ToolMeaning(name: string, description: Option<string>, schema: Json, strict: bool)

  datatype Meaning = Meaning(
    outline: seq<Turn>,
    tools: seq<ToolMeaning>,
    choice: Option<ToolChoice>,
    parallel: Option<bool>,
    sampling: map<string, Json>,
    stop: Option<Json>,
    maxTokens: int)

  function AtomOf(codec: Codec, c: Content): Atom {
    match c
    case TextPart(text) => TextAtom(text)
    case ToolCall(id, name, arguments) => CallAtom(id, name, codec.decode(arguments))
    case ToolResult(callId, content) => ResultAtom(callId, content)
  }

  function AtomsOf(codec: Codec, content: seq<Content>): seq<Atom> {
    if content == [] then [] else [AtomOf(codec, content[0])] + AtomsOf(codec, content[1..])
  }

  function TurnOf(codec: Codec, m: Message): Turn {
    if m.role.Assistant? then AssistantTurn(AtomsOf(codec, m.content)) else UserTurn(AtomsOf(codec, m.content))
  }

  /** How many messages at the front are instructions. */
  function Lead(ms: seq<Message>): (n: nat)
    ensures n <= |ms|
    ensures forall i :: 0 <= i < n ==> IsSystem(ms[i])
    ensures n < |ms| ==> !IsSystem(ms[n])
  {
    if ms != [] && IsSystem(ms[0]) then 1 + Lead(ms[1..]) else 0
  }

  /** The conversation turn by turn, each run of instructions read as one text. */
  function Outline(codec: Codec, ms: seq<Message>): seq<Turn>
    decreases |ms|
  {
    if ms == [] then []
    else if IsSystem(ms[0]) then [SystemTurn(Join(SystemParts(ms[..Lead(ms)]), "\n\n"))] + Outline(codec, ms[Lead(ms)..])
    else [TurnOf(codec, ms[0])] + Outline(codec, ms[1..])
  }

  function ToolMeanings(tools: seq<ToolSpec>): seq<ToolMeaning> {
    if tools == [] then []
    else [ToolMeaning(tools[0].name, tools[0].description, tools[0].schema, tools[0].strict == Some(true))]
         + ToolMeanings(tools[1..])
  }

  function UsableTools(x: Exchange): seq<ToolMeaning> {
    if x.choice == Some(NoTools) then [] else ToolMeanings(x.tools)
  }

  const SAMPLING := {"temperature", "top_p", "top_k", "presence_penalty", "frequency_penalty", "seed"}

  function Sampling(p: map<string, Json>): map<string, Json> {
    map k | k in p && k in SAMPLING && NotNull(p, k) :: p[k]
  }

  function MeaningOf(codec: Codec, x: Exchange): Meaning {
    var tools := UsableTools(x);
    Meaning(
      Outline(codec, x.messages),
      tools,
      if tools == [] then None else Some(if x.choice.Some? then x.choice.value else Auto),
      if tools == [] then None else x.parallel,
      Sampling(x.parameters),
      if NotNull(x.parameters, "stop_sequences") then Some(x.parameters["stop_sequences"]) else StopSequences(x.parameters),
      MaxOrDefault(x))
  }

  // ---- conversation ----

  /** Printing the arguments of a call and parsing them again gives the same value. */
  predicate ReadsBack(codec: Codec, c: Content) {
    c.ToolCall? && IsObject(codec.decode(c.arguments)) ==>
      codec.decode(codec.encode(codec.decode(c.arguments).value)) == codec.decode(c.arguments)
  }

  predicate PartsReadBack(codec: Codec, content: seq<Content>) {
    forall i :: 0 <= i < |content| ==> ReadsBack(codec, content[i])
  }

  /** The JSON library reads back what it prints for the tool calls of this conversation. */
  predicate CallsReadBack(codec: Codec, ms: seq<Message>) {
    forall i :: 0 <= i < |ms| && !IsSystem(ms[i]) ==> PartsReadBack(codec, ms[i].content)
  }

  lemma FirstAndRest<T>(a: seq<T>, b: seq<T>)
    requires a != [] && b != []
    ensures a == b <==> a[0] == b[0] && a[1..] == b[1..]
  {
    assert a == [a[0]] + a[1..] && b == [b[0]] + b[1..];
  }

  lemma {:induction false} AtomsNormal(codec: Codec, content: seq<Content>)
    ensures AtomsOf(codec, NormalParts(codec, content)) == AtomsOf(codec, content) <==> PartsReadBack(codec, content)
  {
    if content != [] {
      AtomsNormal(codec, content[1..]);
      var n := NormalParts(codec, content);
      assert n[1..] == NormalParts(codec, content[1..]) && n[0] == NormalPart(codec, content[0]);
      FirstAndRest(AtomsOf(codec, n), AtomsOf(codec, content));
      assert AtomOf(codec, n[0]) == AtomOf(codec, content[0]) <==> ReadsBack(codec, content[0]);
      assert PartsReadBack(codec, content) <==> ReadsBack(codec, content[0]) && PartsReadBack(codec, content[1..]) by {
        Snoc(content);
      }
    }
  }

  lemma {:induction false} OutlineNormal(codec: Codec, ms: seq<Message>)
    requires forall i :: 0 <= i < |ms| ==> !IsSystem(ms[i])
    ensures Outline(codec, NormalConversation(codec, ms)) == Outline(codec, ms) <==> CallsReadBack(codec, ms)
    decreases |ms|
  {
    if ms != [] {
      OutlineNormal(codec, ms[1..]);
      AtomsNormal(codec, ms[0].content);
      var n := NormalConversation(codec, ms);
      assert n == [NormalMessage(codec, ms[0])] + NormalConversation(codec, ms[1..]);
      assert n[1..] == NormalConversation(codec, ms[1..]);
      FirstAndRest(Outline(codec, n), Outline(codec, ms));
      assert CallsReadBack(codec, ms) <==> PartsReadBack(codec, ms[0].content) && CallsReadBack(codec, ms[1..]) by {
        Snoc(ms);
      }
    }
  }

  lemma FirstParts(m: Message, rest: seq<Message>)
    ensures SystemParts([m] + rest) == Instructions(m) + SystemParts(rest)
  {
    assert ([m] + rest)[1..] == rest;
  }

  lemma {:induction false} SystemPartsSplit(a: seq<Message>, b: seq<Message>)
    ensures SystemParts(a + b) == SystemParts(a) + SystemParts(b)
  {
    if a == [] {
      assert a + b == b;
    } else {
      var m, rest := a[0], a[1..];
      SystemPartsSplit(rest, b);
      assert a == [m] + rest && a + b == [m] + (rest + b);
      FirstParts(m, rest);
      FirstParts(m, rest + b);
      Associative(Instructions(m), SystemParts(rest), SystemParts(b));
    }
  }

  lemma {:induction false} ConversationSplit(codec: Codec, a: seq<Message>, b: seq<Message>)
    ensures NormalConversation(codec, a + b) == NormalConversation(codec, a) + NormalConversation(codec, b)
  {
    if a == [] {
      assert a + b == b;
    } else {
      ConversationSplit(codec, a[1..], b);
      assert (a + b)[1..] == a[1..] + b;
      var first := if IsSystem(a[0]) then [] else [NormalMessage(codec, a[0])];
      Associative(first, NormalConversation(codec, a[1..]), NormalConversation(codec, b));
    }
  }

  lemma {:induction false} NoSystemParts(ms: seq<Message>)
    requires forall i :: 0 <= i < |ms| ==> !IsSystem(ms[i])
    ensures SystemParts(ms) == []
  {
    if ms != [] {
      NoSystemParts(ms[1..]);
    }
  }

  lemma {:induction false} OnlySystem(codec: Codec, ms: seq<Message>)
    requires forall i :: 0 <= i < |ms| ==> IsSystem(ms[i]) && MessageFits(ms[i])
    ensures NormalConversation(codec, ms) == []
    ensures ms != [] ==> SystemParts(ms) != []
  {
    if ms != [] {
      OnlySystem(codec, ms[1..]);
      assert ms[0].content[0].TextPart?;
    }
  }

  /** Leading instructions read as one turn, followed by the rest. */
  lemma RunOutline(codec: Codec, sys: seq<Message>, conv: seq<Message>)
    requires sys != [] && (forall i :: 0 <= i < |sys| ==> IsSystem(sys[i])) && (conv == [] || !IsSystem(conv[0]))
    ensures Outline(codec, sys + conv) == [SystemTurn(Join(SystemParts(sys), "\n\n"))] + Outline(codec, conv)
  {
    var ms := sys + conv;
    assert forall i :: 0 <= i < |sys| ==> ms[i] == sys[i];
    assert conv != [] ==> ms[|sys|] == conv[0];
    assert Lead(ms) == |sys|;
    assert ms[..|sys|] == sys && ms[|sys|..] == conv;
  }

  lemma SingleSystem(text: string)
    ensures SystemParts([Message(System, [TextPart(text)])]) == [text]
  {
    var m := Message(System, [TextPart(text)]);
    assert [m][1..] == [];
    assert TextsOf(m.content) == [text];
  }

  lemma HoistedParts(codec: Codec, sys: seq<Message>, conv: seq<Message>)
    requires forall i :: 0 <= i < |sys| ==> IsSystem(sys[i]) && MessageFits(sys[i])
    requires forall i :: 0 <= i < |conv| ==> !IsSystem(conv[i])
    ensures SystemParts(sys + conv) == SystemParts(sys)
    ensures NormalConversation(codec, sys + conv) == NormalConversation(codec, conv)
    ensures sys != [] ==> SystemParts(sys) != []
  {
    SystemPartsSplit(sys, conv);
    ConversationSplit(codec, sys, conv);
    NoSystemParts(conv);
    OnlySystem(codec, sys);
  }

  lemma NothingHoisted(codec: Codec, ms: seq<Message>)
    requires forall i :: 0 <= i < |ms| ==> !IsSystem(ms[i])
    ensures Outline(codec, NormalSystem(ms) + NormalConversation(codec, ms)) == Outline(codec, ms) <==> CallsReadBack(codec, ms)
  {
    NoSystemParts(ms);
    assert NormalSystem(ms) + NormalConversation(codec, ms) == NormalConversation(codec, ms);
    OutlineNormal(codec, ms);
  }

  lemma HoistedOutline(codec: Codec, sys: seq<Message>, conv: seq<Message>)
    requires sys != [] && forall i :: 0 <= i < |sys| ==> IsSystem(sys[i]) && MessageFits(sys[i])
    requires forall i :: 0 <= i < |conv| ==> !IsSystem(conv[i])
    ensures var ms := sys + conv;
            Outline(codec, NormalSystem(ms) + NormalConversation(codec, ms))
            == [SystemTurn(Join(SystemParts(sys), "\n\n"))] + Outline(codec, NormalConversation(codec, conv))
  {
    HoistedParts(codec, sys, conv);
    ConversationHasNoSystem(codec, conv);
    var text := Join(SystemParts(sys), "\n\n");
    SingleSystem(text);
    RunOutline(codec, [Message(System, [TextPart(text)])], NormalConversation(codec, conv));
    assert Join([text], "\n\n") == text;
  }

  /** If instructions come first, hoisting them keeps the conversation exactly when its tool calls read back. */
  lemma SystemFirstKept(codec: Codec, ms: seq<Message>)
    requires SystemFirst(ms) && forall i :: 0 <= i < |ms| ==> MessageFits(ms[i])
    ensures Outline(codec, NormalSystem(ms) + NormalConversation(codec, ms)) == Outline(codec, ms) <==> CallsReadBack(codec, ms)
  {
    var n := Lead(ms);
    var sys, conv := ms[..n], ms[n..];
    assert ms == sys + conv;
    forall i | 0 <= i < |conv| ensures !IsSystem(conv[i]) {
      assert conv[i] == ms[n + i];
    }
    if n == 0 {
      NothingHoisted(codec, ms);
    } else {
      HoistedOutline(codec, sys, conv);
      RunOutline(codec, sys, conv);
      OutlineNormal(codec, conv);
      SameCalls(codec, sys, conv);
      FirstAndRest(Outline(codec, NormalSystem(ms) + NormalConversation(codec, ms)), Outline(codec, ms));
    }
  }

  lemma SameCalls(codec: Codec, sys: seq<Message>, conv: seq<Message>)
    requires forall i :: 0 <= i < |sys| ==> IsSystem(sys[i])
    ensures CallsReadBack(codec, sys + conv) <==> CallsReadBack(codec, conv)
  {
    var ms := sys + conv;
    assert forall i :: 0 <= i < |conv| ==> ms[|sys| + i] == conv[i];
    assert forall i :: |sys| <= i < |ms| ==> ms[i] == conv[i - |sys|];
  }

  lemma {:induction false} ConversationHasNoSystem(codec: Codec, ms: seq<Message>)
    ensures forall i :: 0 <= i < |NormalConversation(codec, ms)| ==> !IsSystem(NormalConversation(codec, ms)[i])
  {
    if ms != [] {
      ConversationHasNoSystem(codec, ms[1..]);
    }
  }

  predicate SystemTurnIn(turns: seq<Turn>) {
    exists i :: 0 <= i < |turns| && turns[i].SystemTurn?
  }

  lemma {:induction false} OutlineShowsSystem(codec: Codec, ms: seq<Message>)
    ensures SystemTurnIn(Outline(codec, ms)) <==> exists i :: 0 <= i < |ms| && IsSystem(ms[i])
    decreases |ms|
  {
    if ms == [] {
    } else if IsSystem(ms[0]) {
      assert Outline(codec, ms)[0].SystemTurn?;
    } else {
      OutlineShowsSystem(codec, ms[1..]);
      var o := Outline(codec, ms);
      assert o[1..] == Outline(codec, ms[1..]);
      if i :| 0 <= i < |ms| && IsSystem(ms[i]) {
        assert IsSystem(ms[1..][i - 1]);
        var k :| 0 <= k < |o[1..]| && o[1..][k].SystemTurn?;
        assert o[k + 1].SystemTurn?;
      }
      if SystemTurnIn(o) {
        var k :| 0 <= k < |o| && o[k].SystemTurn?;
        assert o[1..][k - 1].SystemTurn?;
        var i :| 0 <= i < |ms[1..]| && IsSystem(ms[1..][i]);
        assert IsSystem(ms[i + 1]);
      }
    }
  }

  /** How many messages the outline's first turn takes. */
  function AfterFirst(ms: seq<Message>): (n: nat)
    requires ms != []
    ensures 0 < n <= |ms|
  {
    if IsSystem(ms[0]) then Lead(ms) else 1
  }

  lemma OutlineRest(codec: Codec, ms: seq<Message>)
    requires ms != []
    ensures Outline(codec, ms) != [] && Outline(codec, ms)[1..] == Outline(codec, ms[AfterFirst(ms)..])
  {
  }

  /** Instructions come first exactly when the outline has none after its first turn. */
  lemma OutlineShowsOrder(codec: Codec, ms: seq<Message>)
    ensures ms == [] || Outline(codec, ms) != []
    ensures ms != [] ==> (SystemFirst(ms) <==> !SystemTurnIn(Outline(codec, ms)[1..]))
  {
    if ms != [] {
      var n := AfterFirst(ms);
      OutlineRest(codec, ms);
      OutlineShowsSystem(codec, ms[n..]);
      if i :| 0 <= i < |ms[n..]| && IsSystem(ms[n..][i]) {
        assert IsSystem(ms[n + i]);
        if IsSystem(ms[0]) {
          assert !IsSystem(ms[n]) && n < n + i;
        } else {
          assert !IsSystem(ms[0]);
        }
        assert !SystemFirst(ms);
      } else {
        forall i, j | 0 <= i < j < |ms| && !IsSystem(ms[i]) ensures !IsSystem(ms[j]) {
          assert j >= n && ms[j] == ms[n..][j - n];
        }
      }
    }
  }

  /** The conversation survives translation exactly when instructions come first and the tool calls read back. */
  lemma OutlineKeptExactlyWhen(codec: Codec, ms: seq<Message>)
    requires forall i :: 0 <= i < |ms| ==> MessageFits(ms[i])
    ensures Outline(codec, NormalSystem(ms) + NormalConversation(codec, ms)) == Outline(codec, ms) <==>
            SystemFirst(ms) && CallsReadBack(codec, ms)
  {
    var normal := NormalSystem(ms) + NormalConversation(codec, ms);
    if SystemFirst(ms) {
      SystemFirstKept(codec, ms);
    } else {
      ConversationHasNoSystem(codec, ms);
      assert SystemFirst(normal);
      OutlineShowsOrder(codec, ms);
      OutlineShowsOrder(codec, normal);
    }
  }

  // ---- tools and parameters ----

  lemma {:induction false} ToolsKeptExactlyWhen(tools: seq<ToolSpec>)
    ensures ToolMeanings(NormalTools(tools)) == ToolMeanings(tools)
            <==> forall i :: 0 <= i < |tools| ==> tools[i].strict != Some(true)
    ensures |ToolMeanings(NormalTools(tools))| == |ToolMeanings(tools)| == |tools|
  {
    if tools != [] {
      ToolsKeptExactlyWhen(tools[1..]);
      var n := NormalTools(tools);
      assert n[1..] == NormalTools(tools[1..]) && n[0] == tools[0].(strict := None);
      var a, b := ToolMeanings(n), ToolMeanings(tools);
      assert a[1..] == ToolMeanings(NormalTools(tools[1..])) && b[1..] == ToolMeanings(tools[1..]);
      assert a == [a[0]] + a[1..] && b == [b[0]] + b[1..];
      assert a == b <==> a[0] == b[0] && a[1..] == b[1..];
      assert forall i :: 0 <= i < |tools[1..]| ==> tools[1..][i] == tools[i + 1];
      assert (forall i :: 0 <= i < |tools| ==> tools[i].strict != Some(true))
        <==> tools[0].strict != Some(true) && (forall i :: 0 <= i < |tools[1..]| ==> tools[1..][i].strict != Some(true));
    }
  }

  lemma ParametersKeptExactlyWhen(x: Exchange)
    requires Parsed(x)
    ensures var p, n := x.parameters, NormalParameters(x.parameters);
            && (Sampling(n) == Sampling(p) <==> ParametersFaithful(x))
            && "stop_sequences" !in p
            && (if NotNull(n, "stop_sequences") then Some(n["stop_sequences"]) else StopSequences(n)) == StopSequences(p)
  {
    var p, n := x.parameters, NormalParameters(x.parameters);
    forall k ensures Lookup(n, k) == if k == "stop_sequences" then StopSequences(p)
                                     else if k in {"temperature", "top_p"} then NonNull(p, k) else None
    {
      LookupParameters(map[], p, k);
    }
    assert Lookup(n, "stop_sequences") == StopSequences(p) && Lookup(n, "stop") == None;
    forall k ensures k in Sampling(n) <==> k in {"temperature", "top_p"} && NotNull(p, k) {
      assert k in n <==> Lookup(n, k).Some?;
    }
    if ParametersFaithful(x) {
      forall k ensures k in Sampling(n) <==> k in Sampling(p) { }
      forall k | k in Sampling(n) ensures Sampling(n)[k] == Sampling(p)[k] {
        assert Lookup(n, k) == Some(n[k]);
      }
    } else {
      var k := if NotNull(p, "presence_penalty") then "presence_penalty"
               else if NotNull(p, "frequency_penalty") then "frequency_penalty" else "seed";
      assert k in Sampling(p) && k !in Sampling(n);
    }
  }

  /** What the translation needs to keep the meaning, all of it visible in the parsed request. */
  predicate Keepable(codec: Codec, x: Exchange) {
    && SystemFirst(x.messages) && CallsReadBack(codec, x.messages)
    && ParametersFaithful(x) && (x.choice == Some(NoTools) || NoneStrict(x))
  }

  /**
   Translation keeps the meaning of an accepted request exactly when instructions come first, the JSON library reads back
   the tool calls it prints, no parameter is set that Anthropic lacks, and no usable tool is strict. The fidelity check
   is what this takes apart from the reading back, but for disabled strict tools, which it refuses.
   */
  lemma MeaningKeptExactlyWhen(codec: Codec, r: ChatRequest, model: string, stream: bool)
    requires FromOpenAi(r).Ok?
    ensures var x := FromOpenAi(r).value;
            var kept := MeaningOf(codec, Normal(codec, x, model, stream)) == MeaningOf(codec, x);
            && (kept <==> Keepable(codec, x))
            && (FidelityOk(x) && CallsReadBack(codec, x.messages) ==> kept)
            && (kept && x.choice != Some(NoTools) ==> FidelityOk(x))
  {
    AcceptedIsParsed(r);
    ParsedMeaning(codec, FromOpenAi(r).value, model, stream);
  }

  /**
   The same of what is read back from the rendered body: for an accepted request without blank texts or ids, whose calls
   carry objects, it means what the request meant exactly when the request can be kept.
   */
  lemma ReadBackMeansTheSameExactlyWhen(codec: Codec, r: ChatRequest, model: string, stream: bool)
    requires FromOpenAi(r).Ok?
    ensures var x := FromOpenAi(r).value;
            Clean(x.messages) && CallsAreObjects(codec, x.messages) ==>
              var body := ToAnthropic(codec, x, model, stream);
              body.Ok? && ReadAnthropic(body.value).Ok? &&
              var back := FromAnthropic(codec, ReadAnthropic(body.value).value);
              back.Ok? && (MeaningOf(codec, back.value) == MeaningOf(codec, x) <==> Keepable(codec, x))
  {
    RoundTrip(codec, r, model, stream);
    MeaningKeptExactlyWhen(codec, r, model, stream);
  }

  lemma ParsedMeaning(codec: Codec, x: Exchange, model: string, stream: bool)
    requires Parsed(x)
    ensures MeaningOf(codec, Normal(codec, x, model, stream)) == MeaningOf(codec, x) <==> Keepable(codec, x)
  {
    OutlineKeptExactlyWhen(codec, x.messages);
    ToolsKeptExactlyWhen(x.tools);
    ParametersKeptExactlyWhen(x);
  }
}
