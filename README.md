# Playground span import, tool-definition conversion and evaluator signatures

A Dafny model of three pieces of Phoenix, an LLM observability platform:

- **The span-to-playground pipeline** (`playground_utils.dfy`, module `PlaygroundUtils`). A recorded
  LLM span carries a JSON attribute bag. The pipeline turns it into a playground instance:
  - chat messages with normalised roles and defaulted tool calls;
  - the output, taken from the output messages or else from `output.value`;
  - the model configuration, with its provider inferred from the model name;
  - the tools.

  Each part that fails to parse adds an error code instead of stopping the others. Only
  unparsable attributes end the import early. The module also models the two
  invocation-parameter rules: mapping raw `key: value` pairs onto parameter definitions, and
  constraining inputs to definitions with renaming.
- **Tool-definition formats** (`tool_schemas.dfy`, module `ToolSchemas`). These are the OpenAI
  and Anthropic tool-definition shapes and the JSON-schema-like object they share. They are
  modelled as parsers from JSON values to typed records, together with serialisers back to JSON.
  The module has the provider detection (OpenAI first, then Anthropic) and the conversions
  between the two formats.
- **Evaluator signatures** (`evaluator_utils.dfy`, module `EvaluatorUtils`):
  - which Python signatures may serve as an experiment evaluator;
  - which of `input`, `output`, `expected` and `metadata` each parameter receives;
  - how a plain result becomes an evaluation result.

Shared modules:
- `wrappers.dfy` has `Option` and `Result`.
- `sequences.dfy` has `Map`, all-or-nothing collection (`AllSome`), filter-after-map (`Compact`) and `find` (`FirstIndex`).
- `json.dfy` has JSON values whose objects keep their entries in order, first-match `Lookup`,
  and `Without`, the entries a passthrough object keeps beside its named keys.
- `model_providers.dfy` has the provider enumeration.

Some inputs are foreign to this model and are taken as parameters:
- The Zod schemas of `./schemas` and `safelyParseJSON` are the function fields of a `Schemas`
  value. Each field gives the shape it extracts, or `None` where `safeParse` fails.
- `ChatRoleMap`, `modelProviderToModelPrefixMap`, `DEFAULT_CHAT_ROLE` and
  `DEFAULT_MODEL_PROVIDER` are the tables `RoleTable` and `ProviderTable`. Their entries keep
  their iteration order.
- `createPlaygroundInstance()` is the `base` argument.
- `generateMessageId` and `generateToolId` are counters. The caller gives the first id, and ids
  are handed out consecutively in call order.

Where a Zod schema of `toolSchemas.ts` is itself the logic, it is modelled concretely:
- A `.passthrough()` object keeps its unknown entries in order in an `extras` list.
- A plain `z.object` drops unknown entries.
- An `.optional()` key accepts an absent entry but not `null`.

Error codes are the constructors of `ParsingError`. Their string values live in a constants
file that is not part of this model.

### Behaviour as the code has it

- When neither output parse succeeds, the instance's `output` is overwritten with `undefined`
  (`NoOutput`). It does not keep the base instance's output.
- `processAttributeToolCalls` of an empty list is an empty list. Only a missing list gives
  `undefined`.
- The key lookup of the invocation-parameter transform is one `find` with a disjunction. The
  first definition matching either name wins. Canonical names are not tried first.
- The orchestrator passes an empty definitions list. Its instance therefore always has empty
  invocation parameters.

## Model

| member | source | states |
|---|---|---|
| `PlaygroundUtils.GetChatRole` | app/src/pages/playground/playgroundUtils.ts:61-72 | A canonical role is returned unchanged. Otherwise the result is the first role, in table order, whose alias list contains the string (case-sensitive). Otherwise it is the default. With a valid table the result is always a canonical role. |
| `PlaygroundUtils.Includes` | app/src/pages/playground/playgroundUtils.ts:196 | `includes` holds exactly when the substring occurs at some position of the name, not only at its start. |
| `PlaygroundUtils.GetModelProviderFromModelName` | app/src/pages/playground/playgroundUtils.ts:191-201 | The result is the first provider, in table order, with a prefix occurring anywhere in the name. No entry precedes it with a match. With no match the result is the default provider. |
| `PlaygroundUtils.ProcessAttributeToolCalls` | app/src/pages/playground/playgroundUtils.ts:81-103 | A missing list gives `undefined`, and a present list a list. The result is never longer than the input. It is empty exactly when no entry has a `tool_call`, and as long exactly when every entry has one. |
| `PlaygroundUtils.ProcessAttributeToolCallsAppend` | app/src/pages/playground/playgroundUtils.ts:87-102 | Extraction distributes over concatenation, so surviving tool calls keep their relative order. |
| `PlaygroundUtils.ProcessAttributeToolCallsSingle` | app/src/pages/playground/playgroundUtils.ts:88-99 | An entry without `tool_call` is dropped. A present one keeps its id, name and arguments. A missing id becomes `""`. A missing function, or a present function without a name, gives the name `""`. Missing or null arguments, with or without a function, become `{}`. |
| `PlaygroundUtils.ProcessAttributeToolCallsMember` | app/src/pages/playground/playgroundUtils.ts:87-102 | A tool call appears in the result exactly when some entry has a `tool_call` that converts to it. |
| `PlaygroundUtils.ProcessAttributeMessagesToChatMessage` | app/src/pages/playground/playgroundUtils.ts:110-121 | There is one chat message per message, in order. Message i has id `firstId + i`, the normalised role, the content copied verbatim (null included) and the extracted tool calls. |
| `PlaygroundUtils.GetTemplateMessagesFromAttributes` | app/src/pages/playground/playgroundUtils.ts:130-145 | If the input-messages schema accepts, the result is the converted messages and no errors. Otherwise it is no messages and exactly the input-messages code. |
| `PlaygroundUtils.OutputOf` | app/src/pages/playground/playgroundUtils.ts:154-182 | Three outcomes. Output messages come with no errors. An output value comes with exactly the output-messages code. Otherwise the output is `undefined` with the output-messages and output-value codes, in that order. The errors are always a prefix of that pair. |
| `PlaygroundUtils.GetOutputFromAttributes` | app/src/pages/playground/playgroundUtils.ts:154-182 | The method that pushes onto the error list returns exactly what `OutputOf` specifies. |
| `PlaygroundUtils.GetBaseModelConfigFromAttributes` | app/src/pages/playground/playgroundUtils.ts:210-226 | On success the result is the model name, its inferred provider, empty invocation parameters and no errors. On failure it is `null` and exactly the model-config code. |
| `PlaygroundUtils.InputFromEntry` | app/src/pages/playground/playgroundUtils.ts:490-508 | An entry gives an input exactly when the first definition whose truthy canonical or invocation name equals the key has an input field and an invocation name. The input then carries that definition's names and the value under that field. |
| `PlaygroundUtils.TransformInvocationParametersFromAttributesToInvocationParameterInputs` | app/src/pages/playground/playgroundUtils.ts:484-510 | The output is never longer than the entries. With no definitions it is empty. |
| `PlaygroundUtils.TransformMember` | app/src/pages/playground/playgroundUtils.ts:489-509 | An input is produced exactly when some raw entry yields it through its first matching definition. |
| `PlaygroundUtils.TransformAppend` | app/src/pages/playground/playgroundUtils.ts:489-509 | The transform distributes over concatenated entries, so outputs keep the entries' order. |
| `PlaygroundUtils.GetModelInvocationParametersFromAttributes` | app/src/pages/playground/playgroundUtils.ts:237-262 | A failed parse records exactly the model-config-with-invocation-parameters code, yet the transform still runs on `{}`. With no definitions the parameters are empty. |
| `PlaygroundUtils.ProcessAttributeTools` | app/src/pages/playground/playgroundUtils.ts:269-281 | The output is never longer than the input. The definitions are the `json_schema`s of the entries that have a `tool`, in order. Tool ids are consecutive over the survivors. |
| `PlaygroundUtils.GetToolsFromAttributes` | app/src/pages/playground/playgroundUtils.ts:290-305 | A schema failure gives no tools and exactly the tools code. Absent `llm.tools` gives no tools and no error. Otherwise the result is the processed tools and no error. |
| `PlaygroundUtils.RenamedAsWritten` | app/src/pages/playground/playgroundUtils.ts:471-478 | The rename as written changes only `invocationName`. The first definition whose canonical name is `===` the input's supplies the new name, or leaves the name unchanged when that definition has no invocation name. Null matches null here. With no such definition the input is unchanged. |
| `PlaygroundUtils.ConstrainInvocationParameterInputsToDefinitionAsWritten` | app/src/pages/playground/playgroundUtils.ts:454-479 | The source's behaviour. The output is never longer than the input. All inputs survive when all match a definition, and none survive when none match. |
| `PlaygroundUtils.ConstrainAsWrittenKeepsSupportedInputs` | app/src/pages/playground/playgroundUtils.ts:458-478 | As written, every kept input is some input that matches a definition, renamed by the first `===` definition. |
| `PlaygroundUtils.ConstrainAsWrittenKeepsEverySupportedInput` | app/src/pages/playground/playgroundUtils.ts:458-478 | As written, every input that matches a definition survives in its renamed form. |
| `PlaygroundUtils.ConstrainAsWrittenAppend` | app/src/pages/playground/playgroundUtils.ts:458-478 | As written, the constraint distributes over concatenation, so the output keeps the inputs' order. |
| `PlaygroundUtils.NullCanonicalNameRenamesAsWritten` | app/src/pages/playground/playgroundUtils.ts:471-478 | As written, an input "seed" with a null canonical name is kept by its invocation name. With no canonical match anywhere, it is still renamed "top_k". |
| `PlaygroundUtils.RenamedInvocationParameterInput` | app/src/pages/playground/playgroundUtils.ts:471-478 | The corrected rename changes only `invocationName`. The first definition whose canonical name is present and equal to the input's supplies the new name. An input without a canonical name, or with no such definition, is unchanged. |
| `PlaygroundUtils.ConstrainInvocationParameterInputsToDefinition` | app/src/pages/playground/playgroundUtils.ts:454-479 | The corrected variant: the source's filter, with the null-guarded rename instead of the source's rename at line 476. The output is never longer than the input. All inputs survive when all match, and none when none match. |
| `PlaygroundUtils.ConstrainKeepsSupportedInputs` | app/src/pages/playground/playgroundUtils.ts:458-478 | In the corrected variant, every kept input is some matching input renamed by the corrected rename. It differs from that input at most in `invocationName`, and a changed name comes from a definition with the same present canonical name. |
| `PlaygroundUtils.ConstrainKeepsEverySupportedInput` | app/src/pages/playground/playgroundUtils.ts:458-478 | In the corrected variant, every input that matches a definition survives in its renamed form. |
| `PlaygroundUtils.ConstrainAppend` | app/src/pages/playground/playgroundUtils.ts:458-478 | The corrected variant distributes over concatenation, so the output keeps the inputs' order. |
| `PlaygroundUtils.StepErrorsInReportingOrder` | app/src/pages/playground/playgroundUtils.ts:386-392 | The concatenated step codes are in reporting order with no repeats, and never include the attributes code. |
| `PlaygroundUtils.TransformSpanAttributesToPlaygroundInstance` | app/src/pages/playground/playgroundUtils.ts:312-394 | Unparsable attributes give the base instance with its span id and exactly the attributes code. Otherwise the codes concatenate in the order message, output, model config, tools, invocation parameters. The model, template and tools keep the base's values where their parse failed, the output is overwritten, and the invocation parameters are empty. |
| `ToolSchemas.ParseParameterType` | app/src/schemas/toolSchemas.ts:13-23 | A property type is accepted exactly when it is one of string, number, boolean, object, array, null, integer. |
| `ToolSchemas.ParameterTypeName` | app/src/schemas/toolSchemas.ts:13-23 | Every property type has a name among the seven, and that name parses back to it. |
| `ToolSchemas.ParseParameterSchema` | app/src/schemas/toolSchemas.ts:11-30 | Only objects are accepted. On acceptance, each named entry is a well-typed value that gives the parsed field. `type` is the name of the parsed type. `description` is absent or a string. `enum` is absent or an array of strings. The extras are exactly the other entries in order. So a value with a missing or unknown type, a non-string description or a non-string-array enum is refused. |
| `ToolSchemas.ParameterSchemaRoundTrip` | app/src/schemas/toolSchemas.ts:11-30 | Every property schema whose extras avoid the named keys parses back from its JSON unchanged. |
| `ToolSchemas.ParseProperties` | app/src/schemas/toolSchemas.ts:9-32 | The `properties` record is accepted exactly when every entry is a property schema. The entries keep their names and order. |
| `ToolSchemas.PropertiesRoundTrip` | app/src/schemas/toolSchemas.ts:9-32 | A well-formed properties record parses back from its JSON. |
| `ToolSchemas.ParseJsonSchema` | app/src/schemas/toolSchemas.ts:6-44 | On acceptance the value is a well-formed object. `type` is "object". `properties` is present, is an object and parses to the parsed properties. `required` is absent or an array of strings. `additionalProperties` is absent or a boolean. The extras are the other entries. So a missing `properties` or a mistyped optional entry is refused. |
| `ToolSchemas.JsonSchemaRoundTrip` | app/src/schemas/toolSchemas.ts:6-44 | A well-formed parameters object parses back from its JSON unchanged, extras included. |
| `ToolSchemas.AcceptedPropertyTypes` | app/src/schemas/toolSchemas.ts:6-44 | Every property of an accepted parameters object has a string `type` among the seven names. |
| `ToolSchemas.ParseOpenAIFunction` | app/src/schemas/toolSchemas.ts:57-76 | On acceptance the value is an object. `name` is present and is the parsed string. `description` is absent or the parsed string. `parameters` is present and parses to the parsed schema, whose `strict` is absent or boolean. The extras are the other entries. So a missing or non-string name, a non-string description or missing parameters are refused. |
| `ToolSchemas.OpenAIFunctionRoundTrip` | app/src/schemas/toolSchemas.ts:57-76 | A valid `function` object parses back from its JSON unchanged, with or without a description. |
| `ToolSchemas.ParseOpenAIToolDefinition` | app/src/schemas/toolSchemas.ts:54-78 | On acceptance `type` is "function". The `function` entry is present and parses to the parsed function. The extras are the other entries, and the result satisfies the validity predicate. So a definition without `function` is refused. Conversely (`ParseOpenAIToolDefinitionAccepts`), any object whose `type` is "function" and whose `function` entry parses is accepted, whatever its key order and further keys. The further keys pass through as extras. |
| `ToolSchemas.ParseOpenAIToolDefinitionAccepts` | app/src/schemas/toolSchemas.ts:54-78 | Any object whose `type` is "function" and whose `function` entry parses is accepted, in any key order and with any further keys. The result holds that function, and the further keys as its passthrough extras. |
| `ToolSchemas.OpenAIToolDefinitionKeepsLeadingKeys` | app/src/schemas/toolSchemas.ts:54-78 | Keys such as `id` placed before a valid definition's own entries do not stop it validating. They join the extras ahead of the existing ones. |
| `ToolSchemas.OpenAIToolDefinitionRoundTrip` | app/src/schemas/toolSchemas.ts:54-78 | A valid OpenAI definition parses back from its JSON unchanged. |
| `ToolSchemas.RejectsNonBooleanStrict` | app/src/schemas/toolSchemas.ts:64-72 | The OpenAI schema refuses a definition whose `parameters.strict` is present and not a boolean. |
| `ToolSchemas.ParseAnthropicToolDefinition` | app/src/schemas/toolSchemas.ts:99-103 | On acceptance `name` and `description` are present strings, and they are the parsed fields. `input_schema` is present and parses to the parsed, well-formed schema. So a definition missing any of the three is refused. Conversely (`ParseAnthropicToolDefinitionAccepts`), any object with string `name` and `description` and a parsable `input_schema` is accepted, whatever its key order and further keys. The further keys are dropped. |
| `ToolSchemas.ParseAnthropicToolDefinitionAccepts` | app/src/schemas/toolSchemas.ts:99-103 | Any object with string `name` and `description` and a parsable `input_schema` is accepted, in any key order and with any further keys. The result holds exactly those three fields, so the further keys are dropped. |
| `ToolSchemas.AnthropicToolDefinitionDropsUnknownKeys` | app/src/schemas/toolSchemas.ts:99-103 | Unknown keys, such as `cache_control`, placed before or after a definition's entries do not stop it validating. The result is the original definition. |
| `ToolSchemas.AnthropicToolDefinitionRoundTrip` | app/src/schemas/toolSchemas.ts:99-103 | An Anthropic definition with a well-formed input schema parses back from its JSON unchanged. |
| `ToolSchemas.AnthropicJsonIsNotOpenAI` | app/src/schemas/toolSchemas.ts:99-103 | The JSON of an Anthropic definition has no `type` entry, so the OpenAI schema refuses it. |
| `ToolSchemas.OpenAIFromAnthropic` | app/src/schemas/toolSchemas.ts:118-128 | The conversion copies name, description and input schema into `function`, and adds `id` equal to "". |
| `ToolSchemas.OpenAIFromAnthropicIsValid` | app/src/schemas/toolSchemas.ts:118-128 | The converted definition is a valid OpenAI definition when the schema's `strict` is, and converts back to the original. |
| `ToolSchemas.AnthropicFromOpenAI` | app/src/schemas/toolSchemas.ts:133-139 | The conversion copies name and parameters. The description is the function's description when present, and otherwise its name. |
| `ToolSchemas.AnthropicToOpenAI` | app/src/schemas/toolSchemas.ts:118-128 | The conversion succeeds exactly when the Anthropic schema accepts. Its result carries the accepted name, description and schema, and `id` equal to "". |
| `ToolSchemas.OpenAIToAnthropic` | app/src/schemas/toolSchemas.ts:133-139 | The conversion succeeds exactly when the OpenAI schema accepts. The description falls back to the name. |
| `ToolSchemas.DetectProvider` | app/src/schemas/toolSchemas.ts:162-183 | It fails with "Unknown tool call format" exactly when neither schema accepts. The OpenAI schema is tried first, so a value both accept is OPENAI. It never reports AZURE_OPENAI. |
| `ToolSchemas.ToOpenAIFormat` | app/src/schemas/toolSchemas.ts:188-201 | An OpenAI definition is returned as validated. An Anthropic-only one is converted. The call fails exactly when detection fails. |
| `ToolSchemas.FromOpenAIFormat` | app/src/schemas/toolSchemas.ts:206-219 | It is the identity for OPENAI and AZURE_OPENAI. For ANTHROPIC a valid definition is converted, and a non-boolean `strict` makes the parse fail. |
| `ToolSchemas.RevalidateOpenAI` | app/src/schemas/toolSchemas.ts:206-219 | Re-parsing the JSON of a valid OpenAI definition gives it back. A non-boolean `strict` makes the re-parse fail. |
| `ToolSchemas.AnthropicRoundTrip` | app/src/schemas/toolSchemas.ts:188-219 | Converting an Anthropic-only definition to OpenAI and back gives the same name, description and input schema, when `strict` is absent or boolean. |
| `ToolSchemas.AnthropicRoundTripRejectsNonBooleanStrict` | app/src/schemas/toolSchemas.ts:188-219 | The same round trip fails when the input schema carries a non-boolean `strict`. |
| `ToolSchemas.OpenAIRoundTripThroughAnthropic` | app/src/schemas/toolSchemas.ts:188-219 | A valid OpenAI definition converted to Anthropic and back keeps its name and parameters. Its description becomes the description, or the name when there was none. |
| `EvaluatorUtils.UnwrapJson` | src/phoenix/experiments/evaluators/utils.py:15-24 | A one-entry object gives its sole value. Every other value is returned unchanged, and the result equals the input exactly in those cases. |
| `EvaluatorUtils.UnwrapWrapped` | src/phoenix/experiments/evaluators/utils.py:15-24 | Wrapping a value under any key and unwrapping it gives the value back. |
| `EvaluatorUtils.ValidateSignature` | src/phoenix/experiments/evaluators/utils.py:27-48 | The signature is accepted exactly when it has one parameter, or several all of which are named, `**kwargs` or defaulted. No parameters is its own error. A name error points at an offending parameter. |
| `EvaluatorUtils.BindSignature` | src/phoenix/experiments/evaluators/utils.py:51-67 | A lone parameter is bound, under its own name, to its own value if that name is one of the four, and otherwise to `output`'s value. With several parameters, the bound names are exactly the parameter names that are among the four, each bound to its own value, and nothing else is bound. |
| `EvaluatorUtils.AcceptedSignatureIsCallable` | src/phoenix/experiments/evaluators/utils.py:27-67 | After an accepted signature is bound, every parameter left unbound is `**kwargs` or has a default. |
| `EvaluatorUtils.DefaultEvalScorer` | src/phoenix/experiments/evaluators/utils.py:159-167 | A bool is tested before int: it is scored 1 or 0 and labelled "True"/"False", and only bools get a label. Numbers are scored, an evaluation result is returned unchanged, and any other type is an error naming it. |

## Left out

- `extractVariablesFromInstances` (playgroundUtils.ts:405-449). It depends on the template-language utilities, which are not part of this model.
- `isChatMessages` (playgroundUtils.ts:399-403). It is a bare call of a foreign schema.
- The Zod schemas of `./schemas`, `safelyParseJSON`, `createPlaygroundInstance` and the id generators are parameters, as described above. So are the constants `ChatRoleMap`, `modelProviderToModelPrefixMap`, the defaults and the error-code strings.
- The id generators are modelled as counters on values. The model does not capture their global state shared across calls.
- `PlaygroundInstance` fields other than id, model, template, tools, output and span id are not modelled. The instance is built from the base by overlaying those fields.
- `Object.entries` orders integer-like keys first. Raw invocation parameters are taken in the order given.
- TransformInvocationParametersFromAttributesToInvocationParameterInputs: an input field named `canonicalName` or `invocationName` is not modelled as overwriting that name. Its value is kept in the value slots.
- `openAIToolDefinitionJSONSchema` (toolSchemas.ts:89-94) and the `.describe` texts are left out. The first is generated by a library, and the texts affect no validation.
- `anyToolDefinitionSchema` (toolSchemas.ts:152-155) is used only as a type. `ToOpenAIFormat` takes any JSON value.
- JSON numbers are reals without IEEE rounding.
- JSON objects are taken to have distinct keys, as they do after `JSON.parse` and in a Python dict. This is an assumption about the input: no predicate of the model states or checks it. On an object that repeats a key, `Lookup` takes the first entry, whereas `JSON.parse` keeps the last value.
- `create_evaluator` and the `_wrap_*_evaluation_function` helpers (utils.py:70-156) are left out. They deal in class construction, coroutines and signature introspection.
- ValidateSignature: the text of the `ValueError` is not modelled. When several parameters are at fault, the one reported is any offending one, since the source iterates a set.
- BindSignature: the `TypeError`s that `sig.bind` itself raises are not modelled, for example a lone parameter that is `**kwargs` or keyword-only. The result is the mapping of names to the values passed.
- DefaultEvalScorer: `float()` conversion is exact. `EvaluationResult`'s other fields, such as metadata, are not modelled.

## Findings

| source | as written | input that shows it | evidently intended | confidence | as-written member | corrected member |
|---|---|---|---|---|---|---|
| app/src/pages/playground/playgroundUtils.ts:476 | The rename takes the first definition whose canonical name is `===` the input's, with no null guard. Null then matches null (and undefined matches undefined), even though the filter at 466-468 refuses such matches. | The input is invocation name "seed" with a null canonical name. The definitions are "top_k" and "seed", both with null canonical names. "seed" is kept by its invocation name, then renamed "top_k". | Rename only through a canonical name present on both sides. An input matched by invocation name alone keeps its name. | medium, not executed | `PlaygroundUtils.NullCanonicalNameRenamesAsWritten` | `PlaygroundUtils.ConstrainKeepsSupportedInputs` |
