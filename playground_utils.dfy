/**
 * The span-attributes-to-playground pipeline (app/src/pages/playground/playgroundUtils.ts):
 * the attribute bag of a recorded span is parsed into the messages, output, model
 * configuration and tools of a playground instance, and every part that fails to parse
 * contributes an error code instead of aborting the others.
 *
 * The Zod schemas of `./schemas` and `safelyParseJSON` are not part of this model: they are
 * the function fields of a `Schemas` value, each giving the shape it extracts or `None` when
 * the value does not validate. `ChatRoleMap`, `modelProviderToModelPrefixMap` and the two
 * defaults are tables passed in. The id generators are counters: the caller gives the first
 * id, and ids are handed out consecutively.
 */
module PlaygroundUtils {
  import opened Wrappers
  import opened Json
  import opened Sequences
  import opened ModelProviders

  // ---------------------------------------------------------------------------
  // Error codes and shapes
  // ---------------------------------------------------------------------------

  /** The error codes of `./constants`, in the order the orchestrator reports them. */
  datatype ParsingError =
    | SpanAttributesParsingError
    | InputMessagesParsingError
    | OutputMessagesParsingError
    | OutputValueParsingError
    | ModelConfigParsingError
    | ToolsParsingError
    | ModelConfigWithInvocationParametersParsingError

  /** Position of a code in the orchestrator's concatenation. */
  function Rank(e: ParsingError): nat {
    match e
    case SpanAttributesParsingError => 0
    case InputMessagesParsingError => 1
    case OutputMessagesParsingError => 2
    case OutputValueParsingError => 3
    case ModelConfigParsingError => 4
    case ToolsParsingError => 5
    case ModelConfigWithInvocationParametersParsingError => 6
  }

  /** Each code occurs at most once and the codes come in reporting order. */
  predicate InReportingOrder(errors: seq<ParsingError>) {
    forall i, j :: 0 <= i < j < |errors| ==> Rank(errors[i]) < Rank(errors[j])
  }

  /**
   * A tool call of a span message, as the message schema lets it through: every part may be
   * missing. `None` stands for an absent or null id or name; `arguments` is any JSON value, so a
   * null one is `Some(Null)`.
   */
  datatype RawToolCallFunction = RawToolCallFunction(name: Option<string>, arguments: Option<Json>)
  datatype RawToolCall = RawToolCall(id: Option<string>, func: Option<RawToolCallFunction>)
  datatype RawToolCallEntry = RawToolCallEntry(toolCall: Option<RawToolCall>)

  /** A message of `llm.input_messages` / `llm.output_messages`. */
  datatype RawMessage = RawMessage(role: string, content: Option<string>, toolCalls: Option<seq<RawToolCallEntry>>)

  /** An entry of `llm.tools`: `{ tool: { json_schema } }`, where `tool` may be missing. */
  datatype RawTool = RawTool(jsonSchema: Json)
  datatype RawToolEntry = RawToolEntry(tool: Option<RawTool>)

  datatype ToolCallFunction = ToolCallFunction(name: string, arguments: Json)
  datatype ToolCall = ToolCall(id: string, func: ToolCallFunction)
  datatype ChatMessage = ChatMessage(id: nat, role: string, content: Option<string>, toolCalls: Option<seq<ToolCall>>)
  datatype OpenAITool = OpenAITool(id: nat, definition: Json)

  /**
   * A canonical parameter name: `undefined`, `null` or a name. The two missing forms are kept
   * apart because `===` tells them apart while `!= null` does not.
   */
  datatype CanonicalName = Undefined | NullName | Named(name: string)

  /** A model's invocation parameter definition (`InvocationParameter`). */
  datatype InvocationParameter = InvocationParameter(
    invocationName: Option<string>,
    canonicalName: CanonicalName,
    invocationInputField: Option<string>)

  /** `InvocationParameterInput`: the names, and the value slots keyed by input field name. */
  datatype InvocationParameterInput = InvocationParameterInput(
    invocationName: string,
    canonicalName: CanonicalName,
    values: Fields)

  datatype ModelConfig = ModelConfig(modelName: string, provider: ModelProvider, invocationParameters: seq<InvocationParameterInput>)
  datatype Template = Chat(messages: seq<ChatMessage>) | TextCompletion(prompt: string)

  /** The `output` of an instance: output messages, an output value, or `undefined`. */
  datatype PlaygroundOutput = NoOutput | OutputMessages(messages: seq<ChatMessage>) | OutputValue(value: Json)

  datatype PlaygroundInstance = PlaygroundInstance(
    id: nat,
    model: ModelConfig,
    template: Template,
    tools: seq<OpenAITool>,
    output: PlaygroundOutput,
    spanId: Option<string>)

  datatype PlaygroundSpan = PlaygroundSpan(id: string, attributes: string)

  /** The foreign parsers, each `None` where `safeParse` fails. */
  datatype Schemas = Schemas(
    parseJson: string -> Option<Json>,
    inputMessages: Json -> Option<seq<RawMessage>>,
    outputMessages: Json -> Option<seq<RawMessage>>,
    outputValue: Json -> Option<Json>,
    modelName: Json -> Option<string>,
    // success, then whether `llm.invocation_parameters` is present
    invocationParameters: Json -> Option<Option<Fields>>,
    // success, then whether `llm.tools` is present
    tools: Json -> Option<Option<seq<Option<RawToolEntry>>>>)

  // ---------------------------------------------------------------------------
  // Roles and providers
  // ---------------------------------------------------------------------------

  /** The canonical roles, `ChatRoleMap` in its entry order, and `DEFAULT_CHAT_ROLE`. */
  datatype RoleTable = RoleTable(roles: set<string>, aliases: seq<(string, seq<string>)>, defaultRole: string)

  /** The table maps onto canonical roles and its default is one. */
  predicate RoleTableValid(t: RoleTable) {
    t.defaultRole in t.roles && forall i :: 0 <= i < |t.aliases| ==> t.aliases[i].0 in t.roles
  }

  /** `getChatRole`: a canonical role itself, else the first role listing it as an alias, else the default. */
  function GetChatRole(t: RoleTable, role: string): (r: string)
    ensures role in t.roles ==> r == role
    ensures role !in t.roles && (exists i :: 0 <= i < |t.aliases| && role in t.aliases[i].1) ==>
      exists i :: 0 <= i < |t.aliases| && role in t.aliases[i].1 && r == t.aliases[i].0 &&
        forall j :: 0 <= j < i ==> role !in t.aliases[j].1
    ensures role !in t.roles && (forall i :: 0 <= i < |t.aliases| ==> role !in t.aliases[i].1) ==> r == t.defaultRole
    ensures RoleTableValid(t) ==> r in t.roles
  {
    if role in t.roles then role
    else
      match FirstIndex(t.aliases, (e: (string, seq<string>)) => role in e.1)
      case Some(i) => t.aliases[i].0
      case None => t.defaultRole
  }

  /** `s.includes(sub)`: `sub` occurs in `s` at some position. */
  function Includes(s: string, sub: string): (b: bool)
    ensures b <==> exists i :: 0 <= i <= |s| && sub <= s[i..]
  {
    if sub <= s then
      assert sub <= s[0..];
      true
    else if s == [] then false
    else
      var b := Includes(s[1..], sub);
      assert forall i :: 1 <= i <= |s| ==> s[i..] == s[1..][i - 1..];
      b
  }

  /** `prefixes.some((prefix) => modelName.includes(prefix))`. */
  predicate MatchesSomePrefix(modelName: string, prefixes: seq<string>) {
    exists k :: 0 <= k < |prefixes| && Includes(modelName, prefixes[k])
  }

  /** `modelProviderToModelPrefixMap` in its key order, and `DEFAULT_MODEL_PROVIDER`. */
  datatype ProviderTable = ProviderTable(prefixes: seq<(ModelProvider, seq<string>)>, defaultProvider: ModelProvider)

  /** `getModelProviderFromModelName`: the first provider in table order one of whose prefixes occurs anywhere in the name. */
  function GetModelProviderFromModelName(t: ProviderTable, modelName: string): (r: ModelProvider)
    ensures (exists i :: 0 <= i < |t.prefixes| && MatchesSomePrefix(modelName, t.prefixes[i].1)) ==>
      exists i :: 0 <= i < |t.prefixes| && MatchesSomePrefix(modelName, t.prefixes[i].1) && r == t.prefixes[i].0 &&
        forall j :: 0 <= j < i ==> !MatchesSomePrefix(modelName, t.prefixes[j].1)
    ensures (forall i :: 0 <= i < |t.prefixes| ==> !MatchesSomePrefix(modelName, t.prefixes[i].1)) ==> r == t.defaultProvider
  {
    match FirstIndex(t.prefixes, (e: (ModelProvider, seq<string>)) => MatchesSomePrefix(modelName, e.1))
    case Some(i) => t.prefixes[i].0
    case None => t.defaultProvider
  }

  // ---------------------------------------------------------------------------
  // Messages and tool calls
  // ---------------------------------------------------------------------------

  /** The playground tool call of a present `tool_call`, with `""`, `""` and `{}` for what is missing or null (`??`). */
  function ToolCallOf(t: RawToolCall): ToolCall {
    var name := if t.func.Some? then t.func.value.name else None;
    var arguments := if t.func.Some? then t.func.value.arguments else None;
    var given := if arguments.Some? && !arguments.value.Null? then arguments.value else Object([]);
    ToolCall(t.id.GetOr(""), ToolCallFunction(name.GetOr(""), given))
  }

  function ExtractToolCall(e: RawToolCallEntry): Option<ToolCall> {
    if e.toolCall.Some? then Some(ToolCallOf(e.toolCall.value)) else None
  }

  function ExtractToolCalls(entries: seq<RawToolCallEntry>): seq<Option<ToolCall>> {
    seq(|entries|, i requires 0 <= i < |entries| => ExtractToolCall(entries[i]))
  }

  /** `processAttributeToolCalls`: missing stays missing; entries without `tool_call` are dropped. */
  function ProcessAttributeToolCalls(toolCalls: Option<seq<RawToolCallEntry>>): (r: Option<seq<ToolCall>>)
    ensures r.None? <==> toolCalls.None?
    ensures r.Some? ==> |r.value| <= |toolCalls.value|
    ensures r.Some? ==> (r.value == [] <==> forall i :: 0 <= i < |toolCalls.value| ==> toolCalls.value[i].toolCall.None?)
    ensures r.Some? ==> (|r.value| == |toolCalls.value| <==> forall i :: 0 <= i < |toolCalls.value| ==> toolCalls.value[i].toolCall.Some?)
  {
    match toolCalls
    case None => None
    case Some(entries) =>
      var extracted := ExtractToolCalls(entries);
      assert forall i :: 0 <= i < |entries| ==> (extracted[i].None? <==> entries[i].toolCall.None?);
      Some(Compact(extracted))
  }

  /** The tool calls of concatenated lists are the concatenated tool calls: survivors keep their order. */
  lemma ProcessAttributeToolCallsAppend(a: seq<RawToolCallEntry>, b: seq<RawToolCallEntry>)
    ensures ProcessAttributeToolCalls(Some(a + b)).value ==
            ProcessAttributeToolCalls(Some(a)).value + ProcessAttributeToolCalls(Some(b)).value
  {
    var ea, eb, eab := ExtractToolCalls(a), ExtractToolCalls(b), ExtractToolCalls(a + b);
    forall i | 0 <= i < |eab|
      ensures eab[i] == (ea + eb)[i]
    {
      if i < |a| {
        assert (a + b)[i] == a[i];
      } else {
        assert (a + b)[i] == b[i - |a|];
      }
    }
    assert eab == ea + eb;
    CompactAppend(ea, eb);
  }

  /** One entry: dropped without `tool_call`, else its id, name and arguments with the defaults filled in. */
  lemma ProcessAttributeToolCallsSingle(e: RawToolCallEntry)
    ensures e.toolCall.None? ==> ProcessAttributeToolCalls(Some([e])) == Some([])
    ensures e.toolCall.Some? ==> ProcessAttributeToolCalls(Some([e])) == Some([ToolCallOf(e.toolCall.value)])
    ensures e.toolCall.Some? ==> var tc := ToolCallOf(e.toolCall.value);
      && (e.toolCall.value.id.None? ==> tc.id == "")
      && (e.toolCall.value.id.Some? ==> tc.id == e.toolCall.value.id.value)
      && (e.toolCall.value.func.None? ==> tc.func == ToolCallFunction("", Object([])))
      && (e.toolCall.value.func.Some? && e.toolCall.value.func.value.name.Some? ==> tc.func.name == e.toolCall.value.func.value.name.value)
      && (e.toolCall.value.func.Some? && e.toolCall.value.func.value.name.None? ==> tc.func.name == "")
      && (e.toolCall.value.func.Some? && e.toolCall.value.func.value.arguments.Some? && !e.toolCall.value.func.value.arguments.value.Null? ==>
            tc.func.arguments == e.toolCall.value.func.value.arguments.value)
      && (e.toolCall.value.func.Some? && e.toolCall.value.func.value.arguments.None? ==> tc.func.arguments == Object([]))
      && (e.toolCall.value.func.Some? && e.toolCall.value.func.value.arguments == Some(Null) ==> tc.func.arguments == Object([]))
  {
    var extracted := ExtractToolCalls([e]);
    assert extracted == [ExtractToolCall(e)];
    assert ProcessAttributeToolCalls(Some([e])) == Some(Compact(extracted));
    assert extracted[1..] == [];
    assert Compact(extracted[1..]) == [];
    if e.toolCall.Some? {
      var tc := ToolCallOf(e.toolCall.value);
      assert Compact(extracted) == [tc] + Compact(extracted[1..]);
      assert [tc] + [] == [tc];
    }
  }

  /** A tool call is produced exactly when some entry carries a `tool_call` that converts to it. */
  lemma ProcessAttributeToolCallsMember(entries: seq<RawToolCallEntry>, tc: ToolCall)
    ensures tc in ProcessAttributeToolCalls(Some(entries)).value <==>
      exists i :: 0 <= i < |entries| && entries[i].toolCall.Some? && ToolCallOf(entries[i].toolCall.value) == tc
  {
    var extracted := ExtractToolCalls(entries);
    CompactMember(extracted, tc);
    if exists i :: 0 <= i < |extracted| && extracted[i] == Some(tc) {
      var i :| 0 <= i < |extracted| && extracted[i] == Some(tc);
      assert entries[i].toolCall.Some? && ToolCallOf(entries[i].toolCall.value) == tc;
    }
    if exists i :: 0 <= i < |entries| && entries[i].toolCall.Some? && ToolCallOf(entries[i].toolCall.value) == tc {
      var i :| 0 <= i < |entries| && entries[i].toolCall.Some? && ToolCallOf(entries[i].toolCall.value) == tc;
      assert extracted[i] == Some(tc);
    }
  }

  /** `processAttributeMessagesToChatMessage`: one chat message per message, in order, with consecutive fresh ids. */
  function ProcessAttributeMessagesToChatMessage(t: RoleTable, messages: seq<RawMessage>, firstId: nat): (r: seq<ChatMessage>)
    ensures |r| == |messages|
    ensures forall i :: 0 <= i < |r| ==>
      && r[i].id == firstId + i
      && r[i].role == GetChatRole(t, messages[i].role)
      && r[i].content == messages[i].content
      && r[i].toolCalls == ProcessAttributeToolCalls(messages[i].toolCalls)
    decreases |messages|
  {
    if messages == [] then []
    else
      var m := messages[0];
      var rest := ProcessAttributeMessagesToChatMessage(t, messages[1..], firstId + 1);
      [ChatMessage(firstId, GetChatRole(t, m.role), m.content, ProcessAttributeToolCalls(m.toolCalls))] + rest
  }

  datatype MessagesResult = MessagesResult(messages: Option<seq<ChatMessage>>, messageParsingErrors: seq<ParsingError>)

  /** `getTemplateMessagesFromAttributes`: the converted input messages, or no messages and the input-messages code. */
  function GetTemplateMessagesFromAttributes(s: Schemas, t: RoleTable, attrs: Json, firstId: nat): (r: MessagesResult)
    ensures r.messages.Some? <==> r.messageParsingErrors == []
    ensures r.messages.None? <==> r.messageParsingErrors == [InputMessagesParsingError]
    ensures r.messages.Some? <==> s.inputMessages(attrs).Some?
    ensures r.messages.Some? ==> r.messages.value == ProcessAttributeMessagesToChatMessage(t, s.inputMessages(attrs).value, firstId)
  {
    match s.inputMessages(attrs)
    case None => MessagesResult(None, [InputMessagesParsingError])
    case Some(raw) => MessagesResult(Some(ProcessAttributeMessagesToChatMessage(t, raw, firstId)), [])
  }

  // ---------------------------------------------------------------------------
  // Output
  // ---------------------------------------------------------------------------

  datatype OutputResult = OutputResult(output: PlaygroundOutput, outputParsingErrors: seq<ParsingError>)

  /** What `getOutputFromAttributes` returns: output messages first, then `output.value`, collecting a code per failed attempt. */
  function OutputOf(s: Schemas, t: RoleTable, attrs: Json, firstId: nat): (r: OutputResult)
    ensures s.outputMessages(attrs).Some? ==>
      r == OutputResult(OutputMessages(ProcessAttributeMessagesToChatMessage(t, s.outputMessages(attrs).value, firstId)), [])
    ensures s.outputMessages(attrs).None? && s.outputValue(attrs).Some? ==>
      r == OutputResult(OutputValue(s.outputValue(attrs).value), [OutputMessagesParsingError])
    ensures s.outputMessages(attrs).None? && s.outputValue(attrs).None? ==>
      r == OutputResult(NoOutput, [OutputMessagesParsingError, OutputValueParsingError])
    ensures r.outputParsingErrors <= [OutputMessagesParsingError, OutputValueParsingError]
    ensures r.output.NoOutput? <==> |r.outputParsingErrors| == 2
  {
    match s.outputMessages(attrs)
    case Some(raw) => OutputResult(OutputMessages(ProcessAttributeMessagesToChatMessage(t, raw, firstId)), [])
    case None =>
      match s.outputValue(attrs)
      case Some(v) => OutputResult(OutputValue(v), [OutputMessagesParsingError])
      case None => OutputResult(NoOutput, [OutputMessagesParsingError, OutputValueParsingError])
  }

  /** `getOutputFromAttributes`, pushing onto its error list as it goes. */
  method GetOutputFromAttributes(s: Schemas, t: RoleTable, attrs: Json, firstId: nat)
    returns (output: PlaygroundOutput, outputParsingErrors: seq<ParsingError>)
    ensures OutputResult(output, outputParsingErrors) == OutputOf(s, t, attrs, firstId)
  {
    outputParsingErrors := [];
    var outputMessages := s.outputMessages(attrs);
    if outputMessages.Some? {
      output := OutputMessages(ProcessAttributeMessagesToChatMessage(t, outputMessages.value, firstId));
      return;
    }
    outputParsingErrors := outputParsingErrors + [OutputMessagesParsingError];
    var parsedOutput := s.outputValue(attrs);
    if parsedOutput.Some? {
      output := OutputValue(parsedOutput.value);
      return;
    }
    outputParsingErrors := outputParsingErrors + [OutputValueParsingError];
    output := NoOutput;
  }

  // ---------------------------------------------------------------------------
  // Model configuration and invocation parameters
  // ---------------------------------------------------------------------------

  datatype ModelConfigResult = ModelConfigResult(modelConfig: Option<ModelConfig>, parsingErrors: seq<ParsingError>)

  /** `getBaseModelConfigFromAttributes`: the name, its inferred provider and no invocation parameters; or the model-config code. */
  function GetBaseModelConfigFromAttributes(s: Schemas, p: ProviderTable, attrs: Json): (r: ModelConfigResult)
    ensures r.modelConfig.Some? <==> s.modelName(attrs).Some?
    ensures r.modelConfig.Some? ==> var name := s.modelName(attrs).value;
      && r.modelConfig.value == ModelConfig(name, GetModelProviderFromModelName(p, name), [])
      && r.parsingErrors == []
    ensures r.modelConfig.None? ==> r.parsingErrors == [ModelConfigParsingError]
  {
    match s.modelName(attrs)
    case Some(name) => ModelConfigResult(Some(ModelConfig(name, GetModelProviderFromModelName(p, name), [])), [])
    case None => ModelConfigResult(None, [ModelConfigParsingError])
  }

  /** The `find` of the transform: a truthy canonical or invocation name equal to the key. */
  predicate KeyMatches(d: InvocationParameter, key: string) {
    || (d.canonicalName.Named? && d.canonicalName.name != "" && d.canonicalName.name == key)
    || (d.invocationName.Some? && d.invocationName.value != "" && d.invocationName.value == key)
  }

  /** `defs[j]` is the definition the `find` picks for `key`. */
  predicate FirstKeyMatch(defs: seq<InvocationParameter>, key: string, j: nat)
    requires j < |defs|
  {
    KeyMatches(defs[j], key) && forall k :: 0 <= k < j ==> !KeyMatches(defs[k], key)
  }

  /** The input made from one raw `key: value` entry, if its first matching definition names an input field and an invocation name. */
  function InputFromEntry(entry: (string, Json), defs: seq<InvocationParameter>): (r: Option<InvocationParameterInput>)
    ensures r.Some? ==> exists j :: (0 <= j < |defs| && FirstKeyMatch(defs, entry.0, j) &&
      defs[j].invocationInputField.Some? && defs[j].invocationName.Some? &&
      r.value == InvocationParameterInput(defs[j].invocationName.value, defs[j].canonicalName,
                                          [(defs[j].invocationInputField.value, entry.1)]))
    ensures r.None? ==> forall j :: 0 <= j < |defs| && FirstKeyMatch(defs, entry.0, j) ==>
      (defs[j].invocationInputField.None? || defs[j].invocationName.None?)
  {
    match FirstIndex(defs, (d: InvocationParameter) => KeyMatches(d, entry.0))
    case None => None
    case Some(j) =>
      var d := defs[j];
      if d.invocationInputField.None? || d.invocationName.None? then None
      else Some(InvocationParameterInput(d.invocationName.value, d.canonicalName, [(d.invocationInputField.value, entry.1)]))
  }

  function InputsFromEntries(entries: Fields, defs: seq<InvocationParameter>): seq<Option<InvocationParameterInput>> {
    seq(|entries|, i requires 0 <= i < |entries| => InputFromEntry(entries[i], defs))
  }

  /** `transformInvocationParametersFromAttributesToInvocationParameterInputs`: the entries that some definition accepts, in order. */
  function TransformInvocationParametersFromAttributesToInvocationParameterInputs(entries: Fields, defs: seq<InvocationParameter>)
    : (r: seq<InvocationParameterInput>)
    ensures |r| <= |entries|
    ensures defs == [] ==> r == []
  {
    var inputs := InputsFromEntries(entries, defs);
    assert defs == [] ==> forall i :: 0 <= i < |inputs| ==> inputs[i].None?;
    Compact(inputs)
  }

  /** Every input comes from an entry whose key the first matching definition accepts, and every such entry gives one. */
  lemma TransformMember(entries: Fields, defs: seq<InvocationParameter>, x: InvocationParameterInput)
    ensures x in TransformInvocationParametersFromAttributesToInvocationParameterInputs(entries, defs) <==>
      exists i :: 0 <= i < |entries| && InputFromEntry(entries[i], defs) == Some(x)
  {
    var inputs := InputsFromEntries(entries, defs);
    CompactMember(inputs, x);
    if exists i :: 0 <= i < |entries| && InputFromEntry(entries[i], defs) == Some(x) {
      var i :| 0 <= i < |entries| && InputFromEntry(entries[i], defs) == Some(x);
      assert inputs[i] == Some(x);
    }
  }

  /** The transform keeps the entries' order. */
  lemma TransformAppend(a: Fields, b: Fields, defs: seq<InvocationParameter>)
    ensures TransformInvocationParametersFromAttributesToInvocationParameterInputs(a + b, defs) ==
            TransformInvocationParametersFromAttributesToInvocationParameterInputs(a, defs) +
            TransformInvocationParametersFromAttributesToInvocationParameterInputs(b, defs)
  {
    InputsFromEntriesAppend(a, b, defs);
    CompactAppend(InputsFromEntries(a, defs), InputsFromEntries(b, defs));
  }

  lemma InputsFromEntriesAppend(a: Fields, b: Fields, defs: seq<InvocationParameter>)
    ensures InputsFromEntries(a + b, defs) == InputsFromEntries(a, defs) + InputsFromEntries(b, defs)
  {
    var l, x, y := InputsFromEntries(a + b, defs), InputsFromEntries(a, defs), InputsFromEntries(b, defs);
    forall i | 0 <= i < |l|
      ensures l[i] == (x + y)[i]
    {
      if i < |a| {
        assert (a + b)[i] == a[i];
      } else {
        assert (a + b)[i] == b[i - |a|];
      }
    }
  }

  /** The raw invocation parameters: `data?.llm.invocation_parameters ?? {}`. */
  function RawInvocationParameters(s: Schemas, attrs: Json): Fields {
    match s.invocationParameters(attrs)
    case Some(Some(fields)) => fields
    case _ => []
  }

  /** `getModelInvocationParametersFromAttributes`: a failed parse adds a code but the transform still runs. */
  method GetModelInvocationParametersFromAttributes(s: Schemas, attrs: Json, defs: seq<InvocationParameter>)
    returns (invocationParameters: seq<InvocationParameterInput>, parsingErrors: seq<ParsingError>)
    ensures parsingErrors == if s.invocationParameters(attrs).None? then [ModelConfigWithInvocationParametersParsingError] else []
    ensures invocationParameters ==
      TransformInvocationParametersFromAttributesToInvocationParameterInputs(RawInvocationParameters(s, attrs), defs)
    ensures defs == [] ==> invocationParameters == []
  {
    var parsed := s.invocationParameters(attrs);
    parsingErrors := [];
    if parsed.None? {
      parsingErrors := parsingErrors + [ModelConfigWithInvocationParametersParsingError];
    }
    var raw := if parsed.Some? && parsed.value.Some? then parsed.value.value else [];
    invocationParameters := TransformInvocationParametersFromAttributesToInvocationParameterInputs(raw, defs);
  }

  // ---------------------------------------------------------------------------
  // Constraining inputs to definitions
  // ---------------------------------------------------------------------------

  /** The filter of `constrainInvocationParameterInputsToDefinition`: same invocation name, or the same canonical name, present on both sides. */
  predicate MatchesDefinition(ip: InvocationParameterInput, d: InvocationParameter) {
    || d.invocationName == Some(ip.invocationName)
    || (d.canonicalName.Named? && ip.canonicalName.Named? && d.canonicalName == ip.canonicalName)
  }

  predicate Supported(ip: InvocationParameterInput, defs: seq<InvocationParameter>) {
    exists j :: 0 <= j < |defs| && MatchesDefinition(ip, defs[j])
  }

  /** The `find` of the rename as written: `mp.canonicalName === ip.canonicalName`, so `null === null` and `undefined === undefined` hold. */
  predicate CanonicalMatchAsWritten(ip: InvocationParameterInput, d: InvocationParameter) {
    d.canonicalName == ip.canonicalName
  }

  /** The rename as written: the invocation name of the first definition that `CanonicalMatchAsWritten` accepts, if it has one. */
  function RenamedAsWritten(ip: InvocationParameterInput, defs: seq<InvocationParameter>): (r: InvocationParameterInput)
    ensures r == ip.(invocationName := r.invocationName)
    ensures r.invocationName != ip.invocationName ==>
      exists j :: 0 <= j < |defs| && defs[j].canonicalName == ip.canonicalName && defs[j].invocationName == Some(r.invocationName)
    ensures forall j :: 0 <= j < |defs| && CanonicalMatchAsWritten(ip, defs[j]) && (forall k :: 0 <= k < j ==> !CanonicalMatchAsWritten(ip, defs[k])) ==>
      r == ip.(invocationName := defs[j].invocationName.GetOr(ip.invocationName))
    ensures (forall j :: 0 <= j < |defs| ==> !CanonicalMatchAsWritten(ip, defs[j])) ==> r == ip
  {
    var found := FirstIndex(defs, (d: InvocationParameter) => CanonicalMatchAsWritten(ip, d));
    assert forall j :: 0 <= j < |defs| && CanonicalMatchAsWritten(ip, defs[j]) && (forall k :: 0 <= k < j ==> !CanonicalMatchAsWritten(ip, defs[k])) ==>
      found == Some(j);
    match found
    case Some(j) => ip.(invocationName := defs[j].invocationName.GetOr(ip.invocationName))
    case None => ip
  }

  /** The survivor an input gives: `None` when the filter drops it, else its renamed form. */
  function CandidateAsWritten(defs: seq<InvocationParameter>): InvocationParameterInput -> Option<InvocationParameterInput> {
    ip => if Supported(ip, defs) then Some(RenamedAsWritten(ip, defs)) else None
  }

  function ConstrainCandidatesAsWritten(inputs: seq<InvocationParameterInput>, defs: seq<InvocationParameter>): seq<Option<InvocationParameterInput>> {
    Map(CandidateAsWritten(defs), inputs)
  }

  /** `constrainInvocationParameterInputsToDefinition` as written: filter the supported inputs, then rename them with `RenamedAsWritten`. */
  function ConstrainInvocationParameterInputsToDefinitionAsWritten(inputs: seq<InvocationParameterInput>, defs: seq<InvocationParameter>)
    : (r: seq<InvocationParameterInput>)
    ensures |r| <= |inputs|
    ensures (forall i :: 0 <= i < |inputs| ==> Supported(inputs[i], defs)) ==> |r| == |inputs|
    ensures (forall i :: 0 <= i < |inputs| ==> !Supported(inputs[i], defs)) ==> r == []
  {
    Compact(ConstrainCandidatesAsWritten(inputs, defs))
  }

  /** As written, what survives is a supported input, renamed by the first `===` definition. */
  lemma ConstrainAsWrittenKeepsSupportedInputs(inputs: seq<InvocationParameterInput>, defs: seq<InvocationParameter>, x: InvocationParameterInput)
    requires x in ConstrainInvocationParameterInputsToDefinitionAsWritten(inputs, defs)
    ensures exists i :: 0 <= i < |inputs| && Supported(inputs[i], defs) && x == RenamedAsWritten(inputs[i], defs)
  {
    var candidates := ConstrainCandidatesAsWritten(inputs, defs);
    CompactMember(candidates, x);
    var i :| 0 <= i < |candidates| && candidates[i] == Some(x);
    assert Supported(inputs[i], defs) && x == RenamedAsWritten(inputs[i], defs);
  }

  /** As written, every supported input survives, renamed. */
  lemma ConstrainAsWrittenKeepsEverySupportedInput(inputs: seq<InvocationParameterInput>, defs: seq<InvocationParameter>, i: nat)
    requires i < |inputs| && Supported(inputs[i], defs)
    ensures RenamedAsWritten(inputs[i], defs) in ConstrainInvocationParameterInputsToDefinitionAsWritten(inputs, defs)
  {
    var candidates := ConstrainCandidatesAsWritten(inputs, defs);
    CompactMember(candidates, RenamedAsWritten(inputs[i], defs));
    assert candidates[i] == Some(RenamedAsWritten(inputs[i], defs));
  }

  /** As written, the constraint keeps the inputs' order. */
  lemma ConstrainAsWrittenAppend(a: seq<InvocationParameterInput>, b: seq<InvocationParameterInput>, defs: seq<InvocationParameter>)
    ensures ConstrainInvocationParameterInputsToDefinitionAsWritten(a + b, defs) ==
            ConstrainInvocationParameterInputsToDefinitionAsWritten(a, defs) + ConstrainInvocationParameterInputsToDefinitionAsWritten(b, defs)
  {
    var ca, cb := ConstrainCandidatesAsWritten(a, defs), ConstrainCandidatesAsWritten(b, defs);
    MapAppend(CandidateAsWritten(defs), a, b);
    CompactAppend(ca, cb);
  }

  /**
   * An input kept only because its invocation name matches, and with no canonical name, takes the
   * invocation name of the first definition that has no canonical name either: "seed" becomes
   * "top_k".
   */
  lemma NullCanonicalNameRenamesAsWritten()
    ensures var defs := [InvocationParameter(Some("top_k"), NullName, Some("valueInt")),
                         InvocationParameter(Some("seed"), NullName, Some("valueInt"))];
      var seed := InvocationParameterInput("seed", NullName, [("valueInt", Number(7.0))]);
      && Supported(seed, defs)
      && !(exists j :: 0 <= j < |defs| && defs[j].canonicalName.Named? && defs[j].canonicalName == seed.canonicalName)
      && ConstrainInvocationParameterInputsToDefinitionAsWritten([seed], defs) == [seed.(invocationName := "top_k")]
  {
    var defs := [InvocationParameter(Some("top_k"), NullName, Some("valueInt")),
                 InvocationParameter(Some("seed"), NullName, Some("valueInt"))];
    var seed := InvocationParameterInput("seed", NullName, [("valueInt", Number(7.0))]);
    assert MatchesDefinition(seed, defs[1]);
    assert CanonicalMatchAsWritten(seed, defs[0]);
    var s := ConstrainCandidatesAsWritten([seed], defs);
    assert s == [Some(seed.(invocationName := "top_k"))];
    assert Compact(s) == [seed.(invocationName := "top_k")] + Compact(s[1..]);
    assert s[1..] == [];
  }

  /** Some definition with the same canonical name as `ip` carries `name` as its invocation name. */
  predicate RenamedBy(ip: InvocationParameterInput, defs: seq<InvocationParameter>, name: string) {
    exists j :: 0 <= j < |defs| && defs[j].canonicalName == ip.canonicalName && defs[j].invocationName == Some(name)
  }

  /** The corrected `find`: the canonical names are equal and present. */
  predicate CanonicalMatch(ip: InvocationParameterInput, d: InvocationParameter) {
    d.canonicalName.Named? && d.canonicalName == ip.canonicalName
  }

  /** The rename the filter's comment describes: only through a canonical name that is present on both sides. */
  function RenamedInvocationParameterInput(ip: InvocationParameterInput, defs: seq<InvocationParameter>): (r: InvocationParameterInput)
    ensures r == ip.(invocationName := r.invocationName)
    ensures r.invocationName != ip.invocationName ==> ip.canonicalName.Named? && RenamedBy(ip, defs, r.invocationName)
    ensures !ip.canonicalName.Named? ==> r == ip
    ensures forall j :: 0 <= j < |defs| && CanonicalMatch(ip, defs[j]) && (forall k :: 0 <= k < j ==> !CanonicalMatch(ip, defs[k])) ==>
      r == ip.(invocationName := defs[j].invocationName.GetOr(ip.invocationName))
    ensures (forall j :: 0 <= j < |defs| ==> !CanonicalMatch(ip, defs[j])) ==> r == ip
  {
    var found := FirstIndex(defs, (d: InvocationParameter) => CanonicalMatch(ip, d));
    assert forall j :: 0 <= j < |defs| && CanonicalMatch(ip, defs[j]) && (forall k :: 0 <= k < j ==> !CanonicalMatch(ip, defs[k])) ==>
      found == Some(j);
    match found
    case Some(j) => ip.(invocationName := defs[j].invocationName.GetOr(ip.invocationName))
    case None => ip
  }

  /** The survivor an input gives: `None` when the filter drops it, else its renamed form. */
  function Candidate(defs: seq<InvocationParameter>): InvocationParameterInput -> Option<InvocationParameterInput> {
    ip => if Supported(ip, defs) then Some(RenamedInvocationParameterInput(ip, defs)) else None
  }

  function ConstrainCandidates(inputs: seq<InvocationParameterInput>, defs: seq<InvocationParameter>): seq<Option<InvocationParameterInput>> {
    Map(Candidate(defs), inputs)
  }

  /**
   * `constrainInvocationParameterInputsToDefinition` corrected: the same filter, with the null
   * guard on the rename (`RenamedInvocationParameterInput`).
   */
  function ConstrainInvocationParameterInputsToDefinition(inputs: seq<InvocationParameterInput>, defs: seq<InvocationParameter>)
    : (r: seq<InvocationParameterInput>)
    ensures |r| <= |inputs|
    ensures (forall i :: 0 <= i < |inputs| ==> Supported(inputs[i], defs)) ==> |r| == |inputs|
    ensures (forall i :: 0 <= i < |inputs| ==> !Supported(inputs[i], defs)) ==> r == []
  {
    Compact(ConstrainCandidates(inputs, defs))
  }

  /**
   * What survives is a supported input, renamed by the corrected rename: at most its invocation
   * name changes, and a changed name always comes from a definition with the same, present,
   * canonical name.
   */
  lemma ConstrainKeepsSupportedInputs(inputs: seq<InvocationParameterInput>, defs: seq<InvocationParameter>, x: InvocationParameterInput)
    requires x in ConstrainInvocationParameterInputsToDefinition(inputs, defs)
    ensures exists i :: (0 <= i < |inputs| && Supported(inputs[i], defs) &&
      x == RenamedInvocationParameterInput(inputs[i], defs) &&
      x == inputs[i].(invocationName := x.invocationName) &&
      (x.invocationName != inputs[i].invocationName ==> inputs[i].canonicalName.Named? && RenamedBy(inputs[i], defs, x.invocationName)))
  {
    var candidates := ConstrainCandidates(inputs, defs);
    CompactMember(candidates, x);
    var i :| 0 <= i < |candidates| && candidates[i] == Some(x);
    assert Supported(inputs[i], defs) && x == RenamedInvocationParameterInput(inputs[i], defs);
  }

  /** Every supported input survives, renamed. */
  lemma ConstrainKeepsEverySupportedInput(inputs: seq<InvocationParameterInput>, defs: seq<InvocationParameter>, i: nat)
    requires i < |inputs| && Supported(inputs[i], defs)
    ensures RenamedInvocationParameterInput(inputs[i], defs) in ConstrainInvocationParameterInputsToDefinition(inputs, defs)
  {
    var candidates := ConstrainCandidates(inputs, defs);
    CompactMember(candidates, RenamedInvocationParameterInput(inputs[i], defs));
    assert candidates[i] == Some(RenamedInvocationParameterInput(inputs[i], defs));
  }

  /** The constraint keeps the inputs' order. */
  lemma ConstrainAppend(a: seq<InvocationParameterInput>, b: seq<InvocationParameterInput>, defs: seq<InvocationParameter>)
    ensures ConstrainInvocationParameterInputsToDefinition(a + b, defs) ==
            ConstrainInvocationParameterInputsToDefinition(a, defs) + ConstrainInvocationParameterInputsToDefinition(b, defs)
  {
    var ca, cb := ConstrainCandidates(a, defs), ConstrainCandidates(b, defs);
    MapAppend(Candidate(defs), a, b);
    CompactAppend(ca, cb);
  }

  // ---------------------------------------------------------------------------
  // Tools
  // ---------------------------------------------------------------------------

  /** The `json_schema` of an entry that has a `tool`. */
  function SchemaOf(e: Option<RawToolEntry>): Option<Json> {
    if e.Some? && e.value.tool.Some? then Some(e.value.tool.value.jsonSchema) else None
  }

  function SchemasOf(entries: seq<Option<RawToolEntry>>): seq<Option<Json>> {
    seq(|entries|, i requires 0 <= i < |entries| => SchemaOf(entries[i]))
  }

  function Definitions(tools: seq<OpenAITool>): seq<Json> {
    seq(|tools|, i requires 0 <= i < |tools| => tools[i].definition)
  }

  lemma SchemasOfCons(entries: seq<Option<RawToolEntry>>)
    requires entries != []
    ensures SchemasOf(entries)[0] == SchemaOf(entries[0]) && SchemasOf(entries)[1..] == SchemasOf(entries[1..])
  {
  }

  lemma DefinitionsCons(t: OpenAITool, rest: seq<OpenAITool>)
    ensures Definitions([t] + rest) == [t.definition] + Definitions(rest)
  {
    assert forall i :: 1 <= i < |[t] + rest| ==> ([t] + rest)[i] == rest[i - 1];
  }

  /** `processAttributeTools`: the entries that have a `tool`, in order, numbered with consecutive tool ids. */
  function ProcessAttributeTools(entries: seq<Option<RawToolEntry>>, firstId: nat): (r: seq<OpenAITool>)
    ensures |r| <= |entries|
    ensures forall i :: 0 <= i < |r| ==> r[i].id == firstId + i
    ensures Definitions(r) == Compact(SchemasOf(entries))
    decreases |entries|
  {
    if entries == [] then []
    else
      var rest := ProcessAttributeTools(entries[1..], if SchemaOf(entries[0]).Some? then firstId + 1 else firstId);
      SchemasOfCons(entries);
      CompactCons(SchemasOf(entries));
      match SchemaOf(entries[0])
      case None => rest
      case Some(d) =>
        var r := [OpenAITool(firstId, d)] + rest;
        DefinitionsCons(OpenAITool(firstId, d), rest);
        assert forall i :: 1 <= i < |r| ==> r[i] == rest[i - 1];
        r
  }

  datatype ToolsResult = ToolsResult(tools: Option<seq<OpenAITool>>, parsingErrors: seq<ParsingError>)

  /** `getToolsFromAttributes`: a failed parse gives the tools code; absent `llm.tools` gives neither tools nor an error. */
  function GetToolsFromAttributes(s: Schemas, attrs: Json, firstId: nat): (r: ToolsResult)
    ensures s.tools(attrs).None? ==> r == ToolsResult(None, [ToolsParsingError])
    ensures s.tools(attrs) == Some(None) ==> r == ToolsResult(None, [])
    ensures s.tools(attrs).Some? && s.tools(attrs).value.Some? ==>
      r == ToolsResult(Some(ProcessAttributeTools(s.tools(attrs).value.value, firstId)), [])
    ensures r.parsingErrors <= [ToolsParsingError]
  {
    match s.tools(attrs)
    case None => ToolsResult(None, [ToolsParsingError])
    case Some(None) => ToolsResult(None, [])
    case Some(Some(entries)) => ToolsResult(Some(ProcessAttributeTools(entries, firstId)), [])
  }

  // ---------------------------------------------------------------------------
  // The orchestrator
  // ---------------------------------------------------------------------------

  /** The codes the invocation-parameter step reports. */
  function InvocationParameterErrors(s: Schemas, attrs: Json): seq<ParsingError> {
    if s.invocationParameters(attrs).None? then [ModelConfigWithInvocationParametersParsingError] else []
  }

  /** The first message id left for the output messages once the input messages took theirs. */
  function OutputFirstId(m: MessagesResult, firstId: nat): nat {
    if m.messages.Some? then firstId + |m.messages.value| else firstId
  }

  /** Every code of `errors` has a rank in `[lo, hi)`. */
  predicate RanksWithin(errors: seq<ParsingError>, lo: nat, hi: nat) {
    forall i :: 0 <= i < |errors| ==> lo <= Rank(errors[i]) < hi
  }

  /** A prefix of an ordered band of codes is ordered and stays in the band. */
  lemma PrefixOfBand(e: seq<ParsingError>, band: seq<ParsingError>, lo: nat, hi: nat)
    requires e <= band && InReportingOrder(band) && RanksWithin(band, lo, hi)
    ensures InReportingOrder(e) && RanksWithin(e, lo, hi)
  {
    assert forall i :: 0 <= i < |e| ==> e[i] == band[i];
  }

  /** Ordered codes followed by ordered codes of higher ranks are ordered. */
  lemma ConcatInReportingOrder(a: seq<ParsingError>, b: seq<ParsingError>, lo: nat, mid: nat, hi: nat)
    requires lo <= mid <= hi
    requires InReportingOrder(a) && RanksWithin(a, lo, mid)
    requires InReportingOrder(b) && RanksWithin(b, mid, hi)
    ensures InReportingOrder(a + b) && RanksWithin(a + b, lo, hi)
  {
    forall i, j | 0 <= i < j < |a + b|
      ensures Rank((a + b)[i]) < Rank((a + b)[j])
    {
      if j < |a| {
        assert (a + b)[i] == a[i] && (a + b)[j] == a[j];
      } else if i < |a| {
        assert (a + b)[i] == a[i] && (a + b)[j] == b[j - |a|];
      } else {
        assert (a + b)[i] == b[i - |a|] && (a + b)[j] == b[j - |a|];
      }
    }
    forall i | 0 <= i < |a + b|
      ensures lo <= Rank((a + b)[i]) < hi
    {
      if i < |a| {
        assert (a + b)[i] == a[i];
      } else {
        assert (a + b)[i] == b[i - |a|];
      }
    }
  }

  /** The codes of the five steps, concatenated, stay in reporting order and never include the attributes code. */
  lemma StepErrorsInReportingOrder(e1: seq<ParsingError>, e2: seq<ParsingError>, e3: seq<ParsingError>, e4: seq<ParsingError>, e5: seq<ParsingError>)
    requires e1 <= [InputMessagesParsingError]
    requires e2 <= [OutputMessagesParsingError, OutputValueParsingError]
    requires e3 <= [ModelConfigParsingError]
    requires e4 <= [ToolsParsingError]
    requires e5 <= [ModelConfigWithInvocationParametersParsingError]
    ensures InReportingOrder(e1 + e2 + e3 + e4 + e5)
    ensures SpanAttributesParsingError !in e1 + e2 + e3 + e4 + e5
  {
    PrefixOfBand(e1, [InputMessagesParsingError], 1, 2);
    PrefixOfBand(e2, [OutputMessagesParsingError, OutputValueParsingError], 2, 4);
    PrefixOfBand(e3, [ModelConfigParsingError], 4, 5);
    PrefixOfBand(e4, [ToolsParsingError], 5, 6);
    PrefixOfBand(e5, [ModelConfigWithInvocationParametersParsingError], 6, 7);
    ConcatInReportingOrder(e1, e2, 1, 2, 4);
    ConcatInReportingOrder(e1 + e2, e3, 1, 4, 5);
    ConcatInReportingOrder(e1 + e2 + e3, e4, 1, 5, 6);
    ConcatInReportingOrder(e1 + e2 + e3 + e4, e5, 1, 6, 7);
    var all := e1 + e2 + e3 + e4 + e5;
    assert forall i :: 0 <= i < |all| ==> all[i] != SpanAttributesParsingError;
  }

  /**
   * `transformSpanAttributesToPlaygroundInstance`. Unparsable attributes give the base instance
   * with its span id and the one attributes code. Otherwise every step runs; the parts that parsed
   * replace the base's, and the codes are concatenated in the order message, output, model config,
   * tools, invocation parameters.
   */
  method TransformSpanAttributesToPlaygroundInstance(
    s: Schemas, roles: RoleTable, providers: ProviderTable, base: PlaygroundInstance, span: PlaygroundSpan,
    firstMessageId: nat, firstToolId: nat)
    returns (playgroundInstance: PlaygroundInstance, parsingErrors: seq<ParsingError>)
    ensures s.parseJson(span.attributes).None? ==>
      playgroundInstance == base.(spanId := Some(span.id)) && parsingErrors == [SpanAttributesParsingError]
    ensures s.parseJson(span.attributes).Some? ==>
      var attrs := s.parseJson(span.attributes).value;
      var m := GetTemplateMessagesFromAttributes(s, roles, attrs, firstMessageId);
      var o := OutputOf(s, roles, attrs, OutputFirstId(m, firstMessageId));
      var mc := GetBaseModelConfigFromAttributes(s, providers, attrs);
      var t := GetToolsFromAttributes(s, attrs, firstToolId);
      && parsingErrors == m.messageParsingErrors + o.outputParsingErrors + mc.parsingErrors + t.parsingErrors
                          + InvocationParameterErrors(s, attrs)
      && playgroundInstance.id == base.id
      && playgroundInstance.model == mc.modelConfig.GetOr(base.model)
      && playgroundInstance.template == (if m.messages.Some? then Chat(m.messages.value) else base.template)
      && playgroundInstance.output == o.output
      && playgroundInstance.tools == t.tools.GetOr(base.tools)
      && playgroundInstance.spanId == Some(span.id)
    ensures s.parseJson(span.attributes).Some? && s.modelName(s.parseJson(span.attributes).value).Some? ==>
      playgroundInstance.model.invocationParameters == []
    ensures InReportingOrder(parsingErrors)
    ensures SpanAttributesParsingError in parsingErrors <==> s.parseJson(span.attributes).None?
    ensures playgroundInstance.spanId == Some(span.id)
  {
    var parsedAttributes := s.parseJson(span.attributes);
    if parsedAttributes.None? {
      playgroundInstance := base.(spanId := Some(span.id));
      parsingErrors := [SpanAttributesParsingError];
      return;
    }
    var attrs := parsedAttributes.value;
    var m := GetTemplateMessagesFromAttributes(s, roles, attrs, firstMessageId);
    var output, outputParsingErrors := GetOutputFromAttributes(s, roles, attrs, OutputFirstId(m, firstMessageId));
    var parsedModelConfigResults := GetBaseModelConfigFromAttributes(s, providers, attrs);
    var modelConfig := parsedModelConfigResults.modelConfig;
    var invocationParameters, invocationParametersParsingErrors := GetModelInvocationParametersFromAttributes(s, attrs, []);
    modelConfig := if modelConfig.Some? then Some(modelConfig.value.(invocationParameters := invocationParameters)) else None;
    var t := GetToolsFromAttributes(s, attrs, firstToolId);
    playgroundInstance := base.(
      model := modelConfig.GetOr(base.model),
      template := if m.messages.Some? then Chat(m.messages.value) else base.template,
      output := output,
      spanId := Some(span.id),
      tools := t.tools.GetOr(base.tools));
    var e1 := m.messageParsingErrors;
    var e2 := outputParsingErrors;
    var e3 := parsedModelConfigResults.parsingErrors;
    var e4 := t.parsingErrors;
    var e5 := invocationParametersParsingErrors;
    parsingErrors := e1 + e2 + e3 + e4 + e5;
    StepErrorsInReportingOrder(e1, e2, e3, e4, e5);
  }
}
