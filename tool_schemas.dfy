/**
 * Tool definitions in the OpenAI and the Anthropic format, their validators and the
 * conversions between them (app/src/schemas/toolSchemas.ts).
 *
 * A Zod object schema is modelled as a parser from a JSON value to a record holding the
 * required and optional keys it names; a `.passthrough()` object also keeps the entries it
 * does not name, in order, in an `extras` list, while a plain `z.object` drops them. An
 * optional key accepts an absent entry but not `null`.
 */
module ToolSchemas {
  import opened Wrappers
  import opened Json
  import opened Sequences
  import opened ModelProviders

  // ---------------------------------------------------------------------------
  // The JSON-schema-like object shared by both formats
  // ---------------------------------------------------------------------------

  /** The values the `type` of a parameter may take. */
  datatype ParameterType = StringType | NumberType | BooleanType | ObjectType | ArrayType | NullType | IntegerType

  const ParameterTypeNames: set<string> := {"string", "number", "boolean", "object", "array", "null", "integer"}

  /** The `z.enum([...])` of a parameter's `type`. */
  function ParseParameterType(name: string): (r: Option<ParameterType>)
    ensures r.Some? <==> name in ParameterTypeNames
  {
    if name == "string" then Some(StringType)
    else if name == "number" then Some(NumberType)
    else if name == "boolean" then Some(BooleanType)
    else if name == "object" then Some(ObjectType)
    else if name == "array" then Some(ArrayType)
    else if name == "null" then Some(NullType)
    else if name == "integer" then Some(IntegerType)
    else None
  }

  function ParameterTypeName(t: ParameterType): (name: string)
    ensures name in ParameterTypeNames && ParseParameterType(name) == Some(t)
  {
    match t
    case StringType => "string"
    case NumberType => "number"
    case BooleanType => "boolean"
    case ObjectType => "object"
    case ArrayType => "array"
    case NullType => "null"
    case IntegerType => "integer"
  }

  /** `z.string().optional()`: `Some(None)` when absent, `None` when the entry is not a string. */
  function OptionalString(v: Option<Json>): Option<Option<string>> {
    match v
    case None => Some(None)
    case Some(Str(s)) => Some(Some(s))
    case Some(_) => None
  }

  /** `z.boolean().optional()`. */
  function OptionalBool(v: Option<Json>): Option<Option<bool>> {
    match v
    case None => Some(None)
    case Some(Bool(b)) => Some(Some(b))
    case Some(_) => None
  }

  /** `z.array(z.string())` on the items of a JSON array. */
  function Strings(items: seq<Json>): (r: Option<seq<string>>)
    ensures r.Some? <==> forall i :: 0 <= i < |items| ==> items[i].Str?
    ensures r.Some? ==> |r.value| == |items| && forall i :: 0 <= i < |items| ==> items[i] == Str(r.value[i])
  {
    if forall i | 0 <= i < |items| :: items[i].Str? then
      Some(seq(|items|, i requires 0 <= i < |items| => items[i].s))
    else None
  }

  /** `z.array(z.string()).optional()`. */
  function OptionalStrings(v: Option<Json>): Option<Option<seq<string>>> {
    match v
    case None => Some(None)
    case Some(Array(items)) => if Strings(items).Some? then Some(Strings(items)) else None
    case Some(_) => None
  }

  function StringsToJson(ss: seq<string>): (r: seq<Json>)
    ensures Strings(r) == Some(ss)
  {
    var r := seq(|ss|, i requires 0 <= i < |ss| => Str(ss[i]));
    assert Strings(r).Some?;
    assert Strings(r).value == ss;
    r
  }

  /** The entry `key: v` when `v` is present, no entry otherwise. */
  function OptionalField(key: string, v: Option<Json>): (r: Fields)
    ensures forall i :: 0 <= i < |r| ==> r[i].0 == key
    ensures Lookup(r, key) == v
  {
    if v.Some? then [(key, v.value)] else []
  }

  function StringOption(s: Option<string>): Option<Json> {
    if s.Some? then Some(Str(s.value)) else None
  }

  function BoolOption(b: Option<bool>): Option<Json> {
    if b.Some? then Some(Bool(b.value)) else None
  }

  function StringsOption(ss: Option<seq<string>>): Option<Json> {
    if ss.Some? then Some(Array(StringsToJson(ss.value))) else None
  }

  /** One entry of `properties`: a passthrough object with a typed `type`. */
  datatype ParameterSchema = ParameterSchema(
    paramType: ParameterType,
    description: Option<string>,
    allowedValues: Option<seq<string>>,  // the `enum` key
    extras: Fields)

  const ParameterKeys: set<string> := {"type", "description", "enum"}

  function ParseParameterSchema(j: Json): (r: Option<ParameterSchema>)
    ensures r.Some? ==> j.Object? && KeysAvoid(r.value.extras, ParameterKeys)
    ensures r.Some? ==> Lookup(j.fields, "type") == Some(Str(ParameterTypeName(r.value.paramType)))
    ensures r.Some? ==> OptionalString(Lookup(j.fields, "description")) == Some(r.value.description)
    ensures r.Some? ==> OptionalStrings(Lookup(j.fields, "enum")) == Some(r.value.allowedValues)
    ensures r.Some? ==> r.value.extras == Without(j.fields, ParameterKeys)
  {
    if !j.Object? then None
    else
      var fs := j.fields;
      var t := Lookup(fs, "type");
      var description := OptionalString(Lookup(fs, "description"));
      var allowed := OptionalStrings(Lookup(fs, "enum"));
      if t.Some? && t.value.Str? && ParseParameterType(t.value.s).Some? && description.Some? && allowed.Some? then
        var pt := ParseParameterType(t.value.s).value;
        assert ParseParameterType(ParameterTypeName(pt)) == Some(pt);
        assert t.value.s == ParameterTypeName(pt) by {
          ParameterTypeNameInjective(t.value.s, pt);
        }
        Some(ParameterSchema(pt, description.value, allowed.value, Without(fs, ParameterKeys)))
      else None
  }

  lemma ParameterTypeNameInjective(name: string, t: ParameterType)
    requires ParseParameterType(name) == Some(t)
    ensures ParameterTypeName(t) == name
  {
  }

  function ParameterSchemaToJson(p: ParameterSchema): Json {
    Object([("type", Str(ParameterTypeName(p.paramType)))]
           + OptionalField("description", StringOption(p.description))
           + OptionalField("enum", StringsOption(p.allowedValues))
           + p.extras)
  }

  /** The entries of the JSON of `p`: its named keys first, then its extras. */
  lemma ParameterSchemaLookups(p: ParameterSchema)
    requires KeysAvoid(p.extras, ParameterKeys)
    ensures var fs := ParameterSchemaToJson(p).fields;
      && Lookup(fs, "type") == Some(Str(ParameterTypeName(p.paramType)))
      && Lookup(fs, "description") == StringOption(p.description)
      && Lookup(fs, "enum") == StringsOption(p.allowedValues)
  {
    var t := Str(ParameterTypeName(p.paramType));
    var d := OptionalField("description", StringOption(p.description));
    var e := OptionalField("enum", StringsOption(p.allowedValues));
    var rest := e + p.extras;
    assert ParameterSchemaToJson(p).fields == [("type", t)] + (d + rest);
    forall k | k in ParameterKeys
      ensures Lookup([("type", t)] + (d + rest), k) == if k == "type" then Some(t) else Lookup(d + rest, k)
      ensures Lookup(d + rest, k) == if Lookup(d, k).Some? then Lookup(d, k) else Lookup(rest, k)
      ensures Lookup(rest, k) == if Lookup(e, k).Some? then Lookup(e, k) else Lookup(p.extras, k)
    {
      LookupCons("type", t, d + rest, k);
      LookupAppend(d, rest, k);
      LookupAppend(e, p.extras, k);
    }
  }

  lemma ParameterSchemaWithout(p: ParameterSchema)
    requires KeysAvoid(p.extras, ParameterKeys)
    ensures Without(ParameterSchemaToJson(p).fields, ParameterKeys) == p.extras
  {
    var t := Str(ParameterTypeName(p.paramType));
    var d := OptionalField("description", StringOption(p.description));
    var e := OptionalField("enum", StringsOption(p.allowedValues));
    var rest := e + p.extras;
    assert ParameterSchemaToJson(p).fields == [("type", t)] + (d + rest);
    WithoutCons("type", t, d + rest, ParameterKeys);
    WithoutAppend(d, rest, ParameterKeys);
    WithoutAppend(e, p.extras, ParameterKeys);
  }

  /** What `ParseParameterSchema` makes of an object whose three named entries parse. */
  lemma ParseParameterSchemaAccepts(fs: Fields, pt: ParameterType, d: Option<string>, e: Option<seq<string>>)
    requires Lookup(fs, "type") == Some(Str(ParameterTypeName(pt)))
    requires OptionalString(Lookup(fs, "description")) == Some(d)
    requires OptionalStrings(Lookup(fs, "enum")) == Some(e)
    ensures ParseParameterSchema(Object(fs)) == Some(ParameterSchema(pt, d, e, Without(fs, ParameterKeys)))
  {
  }

  lemma ParameterSchemaRoundTrip(p: ParameterSchema)
    requires KeysAvoid(p.extras, ParameterKeys)
    ensures ParseParameterSchema(ParameterSchemaToJson(p)) == Some(p)
  {
    var fs := ParameterSchemaToJson(p).fields;
    ParameterSchemaLookups(p);
    ParameterSchemaWithout(p);
    OptionalStringRoundTrip(p.description);
    OptionalRoundTrips(p.allowedValues, None);
    ParseParameterSchemaAccepts(fs, p.paramType, p.description, p.allowedValues);
  }

  lemma OptionalStringRoundTrip(d: Option<string>)
    ensures OptionalString(StringOption(d)) == Some(d)
  {
  }

  /** `z.record(parameterSchema)`: every entry must be a parameter schema. */
  function ParseProperties(fs: Fields): (r: Option<seq<(string, ParameterSchema)>>)
    ensures r.Some? <==> forall i :: 0 <= i < |fs| ==> ParseParameterSchema(fs[i].1).Some?
    ensures r.Some? ==> |r.value| == |fs|
    ensures r.Some? ==> forall i :: 0 <= i < |fs| ==> r.value[i] == (fs[i].0, ParseParameterSchema(fs[i].1).value)
  {
    var parsed := seq(|fs|, i requires 0 <= i < |fs| => ParseParameterSchema(fs[i].1));
    assert forall i :: 0 <= i < |fs| ==> parsed[i] == ParseParameterSchema(fs[i].1);
    match AllSome(parsed)
    case None => None
    case Some(ps) => Some(seq(|fs|, i requires 0 <= i < |fs| => (fs[i].0, ps[i])))
  }

  function PropertiesToJson(ps: seq<(string, ParameterSchema)>): Fields {
    seq(|ps|, i requires 0 <= i < |ps| => (ps[i].0, ParameterSchemaToJson(ps[i].1)))
  }

  predicate PropertiesWellFormed(ps: seq<(string, ParameterSchema)>) {
    forall i :: 0 <= i < |ps| ==> KeysAvoid(ps[i].1.extras, ParameterKeys)
  }

  lemma PropertiesRoundTrip(ps: seq<(string, ParameterSchema)>)
    requires PropertiesWellFormed(ps)
    ensures ParseProperties(PropertiesToJson(ps)) == Some(ps)
  {
    var fs := PropertiesToJson(ps);
    forall i | 0 <= i < |fs|
      ensures ParseParameterSchema(fs[i].1) == Some(ps[i].1)
    {
      ParameterSchemaRoundTrip(ps[i].1);
    }
    assert ParseProperties(fs).Some?;
    assert ParseProperties(fs).value == ps;
  }

  /** `jsonSchemaZodSchema`: the `parameters` / `input_schema` object of a tool. */
  datatype JsonSchema = JsonSchema(
    properties: seq<(string, ParameterSchema)>,
    required: Option<seq<string>>,
    additionalProperties: Option<bool>,
    extras: Fields)

  const SchemaKeys: set<string> := {"type", "properties", "required", "additionalProperties"}

  predicate JsonSchemaWellFormed(s: JsonSchema) {
    KeysAvoid(s.extras, SchemaKeys) && PropertiesWellFormed(s.properties)
  }

  function ParseJsonSchema(j: Json): (r: Option<JsonSchema>)
    ensures r.Some? ==> j.Object? && Lookup(j.fields, "type") == Some(Str("object"))
    ensures r.Some? ==> JsonSchemaWellFormed(r.value)
    ensures r.Some? ==> Lookup(j.fields, "properties").Some? && Lookup(j.fields, "properties").value.Object?
    ensures r.Some? ==> ParseProperties(Lookup(j.fields, "properties").value.fields) == Some(r.value.properties)
    ensures r.Some? ==> OptionalStrings(Lookup(j.fields, "required")) == Some(r.value.required)
    ensures r.Some? ==> OptionalBool(Lookup(j.fields, "additionalProperties")) == Some(r.value.additionalProperties)
    ensures r.Some? ==> r.value.extras == Without(j.fields, SchemaKeys)
  {
    if !j.Object? then None
    else
      var fs := j.fields;
      var props := Lookup(fs, "properties");
      var parsedProps := if props.Some? && props.value.Object? then ParseProperties(props.value.fields) else None;
      var required := OptionalStrings(Lookup(fs, "required"));
      var additional := OptionalBool(Lookup(fs, "additionalProperties"));
      if Lookup(fs, "type") == Some(Str("object")) && parsedProps.Some? && required.Some? && additional.Some? then
        Some(JsonSchema(parsedProps.value, required.value, additional.value, Without(fs, SchemaKeys)))
      else None
  }

  function JsonSchemaToJson(s: JsonSchema): Json {
    Object([("type", Str("object")), ("properties", Object(PropertiesToJson(s.properties)))]
           + OptionalField("required", StringsOption(s.required))
           + OptionalField("additionalProperties", BoolOption(s.additionalProperties))
           + s.extras)
  }

  lemma JsonSchemaLookups(s: JsonSchema)
    requires KeysAvoid(s.extras, SchemaKeys)
    ensures var fs := JsonSchemaToJson(s).fields;
      && Lookup(fs, "type") == Some(Str("object"))
      && Lookup(fs, "properties") == Some(Object(PropertiesToJson(s.properties)))
      && Lookup(fs, "required") == StringsOption(s.required)
      && Lookup(fs, "additionalProperties") == BoolOption(s.additionalProperties)
  {
    var t := Str("object");
    var ps := Object(PropertiesToJson(s.properties));
    var rq := OptionalField("required", StringsOption(s.required));
    var ap := OptionalField("additionalProperties", BoolOption(s.additionalProperties));
    var rest := ap + s.extras;
    var tail := [("properties", ps)] + (rq + rest);
    assert JsonSchemaToJson(s).fields == [("type", t)] + tail;
    forall k | k in SchemaKeys
      ensures Lookup([("type", t)] + tail, k) == if k == "type" then Some(t) else Lookup(tail, k)
      ensures Lookup(tail, k) == if k == "properties" then Some(ps) else Lookup(rq + rest, k)
      ensures Lookup(rq + rest, k) == if Lookup(rq, k).Some? then Lookup(rq, k) else Lookup(rest, k)
      ensures Lookup(rest, k) == if Lookup(ap, k).Some? then Lookup(ap, k) else Lookup(s.extras, k)
    {
      LookupCons("type", t, tail, k);
      LookupCons("properties", ps, rq + rest, k);
      LookupAppend(rq, rest, k);
      LookupAppend(ap, s.extras, k);
    }
  }

  lemma JsonSchemaWithout(s: JsonSchema)
    requires KeysAvoid(s.extras, SchemaKeys)
    ensures Without(JsonSchemaToJson(s).fields, SchemaKeys) == s.extras
  {
    var t := Str("object");
    var ps := Object(PropertiesToJson(s.properties));
    var rq := OptionalField("required", StringsOption(s.required));
    var ap := OptionalField("additionalProperties", BoolOption(s.additionalProperties));
    var rest := ap + s.extras;
    var tail := [("properties", ps)] + (rq + rest);
    assert JsonSchemaToJson(s).fields == [("type", t)] + tail;
    assert Without(ap, SchemaKeys) == [] && Without(rq, SchemaKeys) == [];
    assert Without(s.extras, SchemaKeys) == s.extras;
    WithoutAppend(ap, s.extras, SchemaKeys);
    assert Without(rest, SchemaKeys) == s.extras;
    WithoutAppend(rq, rest, SchemaKeys);
    assert Without(rq + rest, SchemaKeys) == s.extras;
    WithoutCons("properties", ps, rq + rest, SchemaKeys);
    WithoutCons("type", t, tail, SchemaKeys);
  }

  /** What `ParseJsonSchema` makes of an object whose four named entries parse. */
  lemma ParseJsonSchemaAccepts(fs: Fields, ps: seq<(string, ParameterSchema)>, rq: Option<seq<string>>, ap: Option<bool>)
    requires Lookup(fs, "type") == Some(Str("object"))
    requires Lookup(fs, "properties").Some? && Lookup(fs, "properties").value.Object?
    requires ParseProperties(Lookup(fs, "properties").value.fields) == Some(ps)
    requires OptionalStrings(Lookup(fs, "required")) == Some(rq)
    requires OptionalBool(Lookup(fs, "additionalProperties")) == Some(ap)
    ensures ParseJsonSchema(Object(fs)) == Some(JsonSchema(ps, rq, ap, Without(fs, SchemaKeys)))
  {
  }

  lemma JsonSchemaRoundTrip(s: JsonSchema)
    requires JsonSchemaWellFormed(s)
    ensures ParseJsonSchema(JsonSchemaToJson(s)) == Some(s)
  {
    var fs := JsonSchemaToJson(s).fields;
    JsonSchemaLookups(s);
    JsonSchemaWithout(s);
    PropertiesRoundTrip(s.properties);
    OptionalRoundTrips(s.required, s.additionalProperties);
    ParseJsonSchemaAccepts(fs, s.properties, s.required, s.additionalProperties);
  }

  lemma OptionalRoundTrips(ss: Option<seq<string>>, b: Option<bool>)
    ensures OptionalStrings(StringsOption(ss)) == Some(ss)
    ensures OptionalBool(BoolOption(b)) == Some(b)
  {
  }

  /** Every property of an accepted schema has a `type` from the fixed list of seven. */
  lemma AcceptedPropertyTypes(j: Json)
    requires ParseJsonSchema(j).Some?
    ensures Lookup(j.fields, "properties").Some? && Lookup(j.fields, "properties").value.Object?
    ensures var props := Lookup(j.fields, "properties").value.fields;
      forall i :: 0 <= i < |props| ==>
        props[i].1.Object? && Lookup(props[i].1.fields, "type").Some? &&
        Lookup(props[i].1.fields, "type").value.Str? &&
        Lookup(props[i].1.fields, "type").value.s in ParameterTypeNames
  {
    var props := Lookup(j.fields, "properties").value.fields;
    forall i | 0 <= i < |props|
      ensures props[i].1.Object? && Lookup(props[i].1.fields, "type").Some?
      ensures Lookup(props[i].1.fields, "type").value.Str?
      ensures Lookup(props[i].1.fields, "type").value.s in ParameterTypeNames
    {
      var p := ParseParameterSchema(props[i].1).value;
      assert Lookup(props[i].1.fields, "type") == Some(Str(ParameterTypeName(p.paramType)));
    }
  }

  /** The `strict` flag that the OpenAI `parameters` add to the JSON schema: absent or a boolean. */
  predicate StrictOk(s: JsonSchema) {
    var strict := Lookup(s.extras, "strict");
    strict.None? || strict.value.Bool?
  }

  // ---------------------------------------------------------------------------
  // The two tool formats
  // ---------------------------------------------------------------------------

  /** The `function` object of an OpenAI tool (passthrough). */
  datatype OpenAIFunction = OpenAIFunction(name: string, description: Option<string>, parameters: JsonSchema, extras: Fields)

  /** `openAIToolDefinitionSchema`: `type` is always "function" (passthrough). */
  datatype OpenAIToolDefinition = OpenAIToolDefinition(func: OpenAIFunction, extras: Fields)

  /** `anthropicToolDefinitionSchema`: a plain object, so unknown keys are dropped. */
  datatype AnthropicToolDefinition = AnthropicToolDefinition(name: string, description: string, inputSchema: JsonSchema)

  const FunctionKeys: set<string> := {"name", "description", "parameters"}
  const ToolKeys: set<string> := {"type", "function"}

  /** What the OpenAI schema accepts of a typed value: no extra entry shadows a named key, and `strict` is a boolean when present. */
  predicate ValidOpenAIToolDefinition(o: OpenAIToolDefinition) {
    && KeysAvoid(o.extras, ToolKeys)
    && KeysAvoid(o.func.extras, FunctionKeys)
    && JsonSchemaWellFormed(o.func.parameters)
    && StrictOk(o.func.parameters)
  }

  function ParseOpenAIFunction(j: Json): (r: Option<OpenAIFunction>)
    ensures r.Some? ==> KeysAvoid(r.value.extras, FunctionKeys)
    ensures r.Some? ==> JsonSchemaWellFormed(r.value.parameters) && StrictOk(r.value.parameters)
    ensures r.Some? ==> j.Object? && Lookup(j.fields, "name") == Some(Str(r.value.name))
    ensures r.Some? ==> OptionalString(Lookup(j.fields, "description")) == Some(r.value.description)
    ensures r.Some? ==> Lookup(j.fields, "parameters").Some? && ParseJsonSchema(Lookup(j.fields, "parameters").value) == Some(r.value.parameters)
    ensures r.Some? ==> r.value.extras == Without(j.fields, FunctionKeys)
  {
    if !j.Object? then None
    else
      var fs := j.fields;
      var name := Lookup(fs, "name");
      var description := OptionalString(Lookup(fs, "description"));
      var parameters := Lookup(fs, "parameters");
      var schema := if parameters.Some? then ParseJsonSchema(parameters.value) else None;
      if name.Some? && name.value.Str? && description.Some? && schema.Some? && StrictOk(schema.value) then
        Some(OpenAIFunction(name.value.s, description.value, schema.value, Without(fs, FunctionKeys)))
      else None
  }

  /** The OpenAI validator: `type` must be the string "function"; `description` may be absent. */
  function ParseOpenAIToolDefinition(j: Json): (r: Option<OpenAIToolDefinition>)
    ensures r.Some? ==> ValidOpenAIToolDefinition(r.value)
    ensures r.Some? ==> j.Object? && Lookup(j.fields, "type") == Some(Str("function"))
    ensures r.Some? ==> Lookup(j.fields, "function").Some? && ParseOpenAIFunction(Lookup(j.fields, "function").value) == Some(r.value.func)
    ensures r.Some? ==> r.value.extras == Without(j.fields, ToolKeys)
  {
    if !j.Object? then None
    else
      var fs := j.fields;
      var fn := Lookup(fs, "function");
      var parsed := if fn.Some? then ParseOpenAIFunction(fn.value) else None;
      if Lookup(fs, "type") == Some(Str("function")) && parsed.Some? then
        Some(OpenAIToolDefinition(parsed.value, Without(fs, ToolKeys)))
      else None
  }

  /** The Anthropic validator: `name` and `description` must both be strings. */
  function ParseAnthropicToolDefinition(j: Json): (r: Option<AnthropicToolDefinition>)
    ensures r.Some? ==> j.Object?
    ensures r.Some? ==> Lookup(j.fields, "name") == Some(Str(r.value.name))
    ensures r.Some? ==> Lookup(j.fields, "description") == Some(Str(r.value.description))
    ensures r.Some? ==> JsonSchemaWellFormed(r.value.inputSchema)
    ensures r.Some? ==> Lookup(j.fields, "input_schema").Some? && ParseJsonSchema(Lookup(j.fields, "input_schema").value) == Some(r.value.inputSchema)
  {
    if !j.Object? then None
    else
      var fs := j.fields;
      var name := Lookup(fs, "name");
      var description := Lookup(fs, "description");
      var input := Lookup(fs, "input_schema");
      var schema := if input.Some? then ParseJsonSchema(input.value) else None;
      if name.Some? && name.value.Str? && description.Some? && description.value.Str? && schema.Some? then
        Some(AnthropicToolDefinition(name.value.s, description.value.s, schema.value))
      else None
  }

  function OpenAIToolDefinitionToJson(o: OpenAIToolDefinition): Json {
    Object([("type", Str("function")), ("function", OpenAIFunctionToJson(o.func))] + o.extras)
  }

  function AnthropicToolDefinitionToJson(a: AnthropicToolDefinition): Json {
    Object([("name", Str(a.name)), ("description", Str(a.description)), ("input_schema", JsonSchemaToJson(a.inputSchema))])
  }

  function OpenAIFunctionToJson(f: OpenAIFunction): Json {
    Object([("name", Str(f.name))]
           + OptionalField("description", StringOption(f.description))
           + [("parameters", JsonSchemaToJson(f.parameters))]
           + f.extras)
  }

  lemma OpenAIFunctionLookups(f: OpenAIFunction)
    requires KeysAvoid(f.extras, FunctionKeys)
    ensures var fs := OpenAIFunctionToJson(f).fields;
      && Lookup(fs, "name") == Some(Str(f.name))
      && Lookup(fs, "description") == StringOption(f.description)
      && Lookup(fs, "parameters") == Some(JsonSchemaToJson(f.parameters))
  {
    var n := Str(f.name);
    var d := OptionalField("description", StringOption(f.description));
    var pj := JsonSchemaToJson(f.parameters);
    var rest := [("parameters", pj)] + f.extras;
    assert OpenAIFunctionToJson(f).fields == [("name", n)] + (d + rest);
    forall k | k in FunctionKeys
      ensures Lookup([("name", n)] + (d + rest), k) == if k == "name" then Some(n) else Lookup(d + rest, k)
      ensures Lookup(d + rest, k) == if Lookup(d, k).Some? then Lookup(d, k) else Lookup(rest, k)
      ensures Lookup(rest, k) == if k == "parameters" then Some(pj) else Lookup(f.extras, k)
    {
      LookupCons("name", n, d + rest, k);
      LookupAppend(d, rest, k);
      LookupCons("parameters", pj, f.extras, k);
    }
  }

  lemma OpenAIFunctionWithout(f: OpenAIFunction)
    requires KeysAvoid(f.extras, FunctionKeys)
    ensures Without(OpenAIFunctionToJson(f).fields, FunctionKeys) == f.extras
  {
    var n := Str(f.name);
    var d := OptionalField("description", StringOption(f.description));
    var pj := JsonSchemaToJson(f.parameters);
    var rest := [("parameters", pj)] + f.extras;
    assert OpenAIFunctionToJson(f).fields == [("name", n)] + (d + rest);
    WithoutCons("name", n, d + rest, FunctionKeys);
    WithoutAppend(d, rest, FunctionKeys);
    WithoutCons("parameters", pj, f.extras, FunctionKeys);
  }

  lemma OpenAIToolDefinitionEntries(o: OpenAIToolDefinition)
    requires KeysAvoid(o.extras, ToolKeys)
    ensures var fs := OpenAIToolDefinitionToJson(o).fields;
      && Lookup(fs, "type") == Some(Str("function"))
      && Lookup(fs, "function") == Some(OpenAIFunctionToJson(o.func))
      && Without(fs, ToolKeys) == o.extras
  {
    var fj := OpenAIFunctionToJson(o.func);
    var rest := [("function", fj)] + o.extras;
    assert OpenAIToolDefinitionToJson(o).fields == [("type", Str("function"))] + rest;
    LookupCons("type", Str("function"), rest, "type");
    LookupCons("type", Str("function"), rest, "function");
    LookupCons("function", fj, o.extras, "function");
    WithoutCons("type", Str("function"), rest, ToolKeys);
    WithoutCons("function", fj, o.extras, ToolKeys);
  }

  lemma OpenAIToolDefinitionRoundTrip(o: OpenAIToolDefinition)
    requires ValidOpenAIToolDefinition(o)
    ensures ParseOpenAIToolDefinition(OpenAIToolDefinitionToJson(o)) == Some(o)
  {
    OpenAIToolDefinitionEntries(o);
    OpenAIFunctionRoundTrip(o.func);
  }

  lemma OpenAIFunctionRoundTrip(f: OpenAIFunction)
    requires KeysAvoid(f.extras, FunctionKeys)
    requires JsonSchemaWellFormed(f.parameters) && StrictOk(f.parameters)
    ensures ParseOpenAIFunction(OpenAIFunctionToJson(f)) == Some(f)
  {
    var fs := OpenAIFunctionToJson(f).fields;
    OpenAIFunctionLookups(f);
    OpenAIFunctionWithout(f);
    JsonSchemaRoundTrip(f.parameters);
    OptionalStringRoundTrip(f.description);
    ParseOpenAIFunctionAccepts(fs, f.name, f.description, f.parameters);
  }

  /** What `ParseOpenAIFunction` makes of an object whose named entries parse. */
  lemma ParseOpenAIFunctionAccepts(fs: Fields, name: string, d: Option<string>, ps: JsonSchema)
    requires Lookup(fs, "name") == Some(Str(name))
    requires OptionalString(Lookup(fs, "description")) == Some(d)
    requires Lookup(fs, "parameters").Some? && ParseJsonSchema(Lookup(fs, "parameters").value) == Some(ps)
    requires StrictOk(ps)
    ensures ParseOpenAIFunction(Object(fs)) == Some(OpenAIFunction(name, d, ps, Without(fs, FunctionKeys)))
  {
  }

  /** The OpenAI validator accepts any object, in any key order and with any further keys,
      whose `type` is "function" and whose `function` parses; the further keys pass through. */
  lemma ParseOpenAIToolDefinitionAccepts(fs: Fields, f: OpenAIFunction)
    requires Lookup(fs, "type") == Some(Str("function"))
    requires Lookup(fs, "function").Some? && ParseOpenAIFunction(Lookup(fs, "function").value) == Some(f)
    ensures ParseOpenAIToolDefinition(Object(fs)) == Some(OpenAIToolDefinition(f, Without(fs, ToolKeys)))
  {
  }

  /** The Anthropic validator accepts any object, in any key order and with any further keys,
      whose `name` and `description` are strings and whose `input_schema` parses; the further
      keys are dropped. */
  lemma ParseAnthropicToolDefinitionAccepts(fs: Fields, n: string, d: string, s: JsonSchema)
    requires Lookup(fs, "name") == Some(Str(n))
    requires Lookup(fs, "description") == Some(Str(d))
    requires Lookup(fs, "input_schema").Some? && ParseJsonSchema(Lookup(fs, "input_schema").value) == Some(s)
    ensures ParseAnthropicToolDefinition(Object(fs)) == Some(AnthropicToolDefinition(n, d, s))
  {
  }

  /** Keys placed before an OpenAI definition's own entries, such as a leading `id`, do not stop
      it validating; they join its passthrough extras ahead of the existing ones. */
  lemma OpenAIToolDefinitionKeepsLeadingKeys(o: OpenAIToolDefinition, extra: Fields)
    requires ValidOpenAIToolDefinition(o)
    requires KeysAvoid(extra, ToolKeys)
    ensures ParseOpenAIToolDefinition(Object(extra + OpenAIToolDefinitionToJson(o).fields))
         == Some(OpenAIToolDefinition(o.func, extra + o.extras))
  {
    var fs := OpenAIToolDefinitionToJson(o).fields;
    OpenAIToolDefinitionEntries(o);
    OpenAIFunctionRoundTrip(o.func);
    LookupAppend(extra, fs, "type");
    LookupAppend(extra, fs, "function");
    WithoutAppend(extra, fs, ToolKeys);
    ParseOpenAIToolDefinitionAccepts(extra + fs, o.func);
  }

  /** Unknown keys beside an Anthropic definition, such as `cache_control`, do not stop it
      validating, and they are dropped from the result. */
  lemma AnthropicToolDefinitionDropsUnknownKeys(a: AnthropicToolDefinition, extra: Fields)
    requires JsonSchemaWellFormed(a.inputSchema)
    requires KeysAvoid(extra, {"name", "description", "input_schema"})
    ensures ParseAnthropicToolDefinition(Object(extra + AnthropicToolDefinitionToJson(a).fields)) == Some(a)
    ensures ParseAnthropicToolDefinition(Object(AnthropicToolDefinitionToJson(a).fields + extra)) == Some(a)
  {
    var fs := AnthropicToolDefinitionToJson(a).fields;
    AnthropicToolDefinitionEntries(a);
    JsonSchemaRoundTrip(a.inputSchema);
    LookupAppend(extra, fs, "name");
    LookupAppend(extra, fs, "description");
    LookupAppend(extra, fs, "input_schema");
    ParseAnthropicToolDefinitionAccepts(extra + fs, a.name, a.description, a.inputSchema);
    LookupAppend(fs, extra, "name");
    LookupAppend(fs, extra, "description");
    LookupAppend(fs, extra, "input_schema");
    ParseAnthropicToolDefinitionAccepts(fs + extra, a.name, a.description, a.inputSchema);
  }

  lemma AnthropicToolDefinitionEntries(a: AnthropicToolDefinition)
    ensures var fs := AnthropicToolDefinitionToJson(a).fields;
      && Lookup(fs, "name") == Some(Str(a.name))
      && Lookup(fs, "description") == Some(Str(a.description))
      && Lookup(fs, "input_schema") == Some(JsonSchemaToJson(a.inputSchema))
      && Lookup(fs, "type").None?
  {
    var sj := JsonSchemaToJson(a.inputSchema);
    var fs := AnthropicToolDefinitionToJson(a).fields;
    forall k | k in {"name", "description", "input_schema", "type"}
      ensures Lookup(fs, k) == if k == "name" then Some(Str(a.name)) else Lookup(fs[1..], k)
      ensures Lookup(fs[1..], k) == if k == "description" then Some(Str(a.description)) else Lookup(fs[2..], k)
      ensures Lookup(fs[2..], k) == if k == "input_schema" then Some(sj) else None
    {
      LookupCons("name", Str(a.name), fs[1..], k);
      assert fs[1..] == [("description", Str(a.description))] + fs[2..];
      LookupCons("description", Str(a.description), fs[2..], k);
      assert fs[2..] == [("input_schema", sj)] + [];
      LookupCons("input_schema", sj, [], k);
    }
  }

  lemma AnthropicToolDefinitionRoundTrip(a: AnthropicToolDefinition)
    requires JsonSchemaWellFormed(a.inputSchema)
    ensures ParseAnthropicToolDefinition(AnthropicToolDefinitionToJson(a)) == Some(a)
  {
    AnthropicToolDefinitionEntries(a);
    JsonSchemaRoundTrip(a.inputSchema);
  }

  /** The JSON of an Anthropic definition has no `type` entry, so the OpenAI schema refuses it. */
  lemma AnthropicJsonIsNotOpenAI(a: AnthropicToolDefinition)
    ensures ParseOpenAIToolDefinition(AnthropicToolDefinitionToJson(a)).None?
  {
    AnthropicToolDefinitionEntries(a);
  }

  // ---------------------------------------------------------------------------
  // Conversions and provider detection
  // ---------------------------------------------------------------------------

  /** Why a conversion throws: "Unknown tool call format", or a failed `.parse`. */
  datatype ToolError = UnknownToolCallFormat | InvalidToolDefinition

  datatype AnyToolDefinition = OpenAIDefinition(openAI: OpenAIToolDefinition) | AnthropicDefinition(anthropic: AnthropicToolDefinition)

  /** The transform of `anthropicToOpenAI`, applied to a validated Anthropic definition. */
  function OpenAIFromAnthropic(a: AnthropicToolDefinition): (o: OpenAIToolDefinition)
    ensures o.func.name == a.name && o.func.description == Some(a.description)
    ensures o.func.parameters == a.inputSchema
    ensures Lookup(o.extras, "id") == Some(Str(""))
  {
    OpenAIToolDefinition(OpenAIFunction(a.name, Some(a.description), a.inputSchema, []), [("id", Str(""))])
  }

  /** The transform of `openAIToAnthropic`, applied to a validated OpenAI definition. */
  function AnthropicFromOpenAI(o: OpenAIToolDefinition): (a: AnthropicToolDefinition)
    ensures a.name == o.func.name && a.inputSchema == o.func.parameters
    ensures o.func.description.Some? ==> a.description == o.func.description.value
    ensures o.func.description.None? ==> a.description == o.func.name
  {
    AnthropicToolDefinition(o.func.name, o.func.description.GetOr(o.func.name), o.func.parameters)
  }

  /** `anthropicToOpenAI.parse(j)`: validate as Anthropic, then convert; throws when invalid. */
  function AnthropicToOpenAI(j: Json): (r: Result<OpenAIToolDefinition, ToolError>)
    ensures r.Ok? <==> ParseAnthropicToolDefinition(j).Some?
    ensures r.Err? ==> r.error == InvalidToolDefinition
    ensures r.Ok? ==> r.value.func.name == ParseAnthropicToolDefinition(j).value.name
    ensures r.Ok? ==> r.value.func.description == Some(ParseAnthropicToolDefinition(j).value.description)
    ensures r.Ok? ==> r.value.func.parameters == ParseAnthropicToolDefinition(j).value.inputSchema
    ensures r.Ok? ==> Lookup(r.value.extras, "id") == Some(Str(""))
  {
    match ParseAnthropicToolDefinition(j)
    case Some(a) => Ok(OpenAIFromAnthropic(a))
    case None => Err(InvalidToolDefinition)
  }

  /** `openAIToAnthropic.parse(j)`: validate as OpenAI, then convert; throws when invalid. */
  function OpenAIToAnthropic(j: Json): (r: Result<AnthropicToolDefinition, ToolError>)
    ensures r.Ok? <==> ParseOpenAIToolDefinition(j).Some?
    ensures r.Err? ==> r.error == InvalidToolDefinition
    ensures r.Ok? ==> var o := ParseOpenAIToolDefinition(j).value;
      r.value.name == o.func.name && r.value.inputSchema == o.func.parameters &&
      r.value.description == (if o.func.description.Some? then o.func.description.value else o.func.name)
  {
    match ParseOpenAIToolDefinition(j)
    case Some(o) => Ok(AnthropicFromOpenAI(o))
    case None => Err(InvalidToolDefinition)
  }

  datatype Detection = Detection(provider: ModelProvider, validatedToolDefinition: AnyToolDefinition)

  /** `detectProvider`: the OpenAI schema is tried first, then the Anthropic one; neither throws. */
  function DetectProvider(j: Json): (r: Result<Detection, ToolError>)
    ensures r.Err? <==> ParseOpenAIToolDefinition(j).None? && ParseAnthropicToolDefinition(j).None?
    ensures r.Err? ==> r.error == UnknownToolCallFormat
    ensures ParseOpenAIToolDefinition(j).Some? ==>
      r == Ok(Detection(OpenAI, OpenAIDefinition(ParseOpenAIToolDefinition(j).value)))
    ensures ParseOpenAIToolDefinition(j).None? && ParseAnthropicToolDefinition(j).Some? ==>
      r == Ok(Detection(Anthropic, AnthropicDefinition(ParseAnthropicToolDefinition(j).value)))
    ensures r.Ok? ==> r.value.provider != AzureOpenAI
  {
    match ParseOpenAIToolDefinition(j)
    case Some(o) => Ok(Detection(OpenAI, OpenAIDefinition(o)))
    case None =>
      match ParseAnthropicToolDefinition(j)
      case Some(a) => Ok(Detection(Anthropic, AnthropicDefinition(a)))
      case None => Err(UnknownToolCallFormat)
  }

  /**
   * `toOpenAIFormat`: an OpenAI definition is returned as validated; an Anthropic one goes
   * through `anthropicToOpenAI.parse`, which accepts it again. The `switch` on the detected
   * provider is a match on the validated definition, which the detection ties to it.
   */
  function ToOpenAIFormat(j: Json): (r: Result<OpenAIToolDefinition, ToolError>)
    ensures r.Err? <==> ParseOpenAIToolDefinition(j).None? && ParseAnthropicToolDefinition(j).None?
    ensures r.Err? ==> r.error == UnknownToolCallFormat
    ensures ParseOpenAIToolDefinition(j).Some? ==> r == Ok(ParseOpenAIToolDefinition(j).value)
    ensures ParseOpenAIToolDefinition(j).None? && ParseAnthropicToolDefinition(j).Some? ==>
      r == Ok(OpenAIFromAnthropic(ParseAnthropicToolDefinition(j).value))
  {
    match DetectProvider(j)
    case Err(e) => Err(e)
    case Ok(detected) =>
      match detected.validatedToolDefinition
      case OpenAIDefinition(o) => Ok(o)
      case AnthropicDefinition(a) =>
        AnthropicToolDefinitionRoundTrip(a);
        AnthropicToOpenAI(AnthropicToolDefinitionToJson(a))
  }

  /** `fromOpenAIFormat`: the identity for OpenAI targets; for Anthropic, `openAIToAnthropic.parse`. */
  function FromOpenAIFormat(o: OpenAIToolDefinition, targetProvider: ModelProvider): (r: Result<AnyToolDefinition, ToolError>)
    ensures targetProvider != Anthropic ==> r == Ok(OpenAIDefinition(o))
    ensures targetProvider == Anthropic && ValidOpenAIToolDefinition(o) ==>
      r == Ok(AnthropicDefinition(AnthropicFromOpenAI(o)))
    ensures targetProvider == Anthropic && JsonSchemaWellFormed(o.func.parameters) && !StrictOk(o.func.parameters) ==>
      r == Err(InvalidToolDefinition)
    ensures r.Err? ==> r.error == InvalidToolDefinition
  {
    match targetProvider
    case OpenAI => Ok(OpenAIDefinition(o))
    case AzureOpenAI => Ok(OpenAIDefinition(o))
    case Anthropic =>
      var j := OpenAIToolDefinitionToJson(o);
      RevalidateOpenAI(o);
      match OpenAIToAnthropic(j)
      case Ok(a) => Ok(AnthropicDefinition(a))
      case Err(e) => Err(e)
  }

  /** What the `.parse` in `fromOpenAIFormat` makes of the JSON of a typed OpenAI definition. */
  lemma RevalidateOpenAI(o: OpenAIToolDefinition)
    ensures ValidOpenAIToolDefinition(o) ==> ParseOpenAIToolDefinition(OpenAIToolDefinitionToJson(o)) == Some(o)
    ensures JsonSchemaWellFormed(o.func.parameters) && !StrictOk(o.func.parameters) ==>
      ParseOpenAIToolDefinition(OpenAIToolDefinitionToJson(o)).None?
  {
    if ValidOpenAIToolDefinition(o) {
      OpenAIToolDefinitionRoundTrip(o);
    } else if JsonSchemaWellFormed(o.func.parameters) && !StrictOk(o.func.parameters) {
      RejectsNonBooleanStrict(o);
    }
  }

  /** The `parameters` entry precedes the extras, so it is found whatever they hold. */
  lemma FunctionParametersLookup(f: OpenAIFunction)
    ensures Lookup(OpenAIFunctionToJson(f).fields, "parameters") == Some(JsonSchemaToJson(f.parameters))
  {
    var d := OptionalField("description", StringOption(f.description));
    var rest := [("parameters", JsonSchemaToJson(f.parameters))] + f.extras;
    assert OpenAIFunctionToJson(f).fields == [("name", Str(f.name))] + (d + rest);
    LookupCons("name", Str(f.name), d + rest, "parameters");
    LookupAppend(d, rest, "parameters");
    LookupCons("parameters", JsonSchemaToJson(f.parameters), f.extras, "parameters");
  }

  /** Likewise the `function` entry of a tool definition. */
  lemma ToolFunctionLookup(o: OpenAIToolDefinition)
    ensures Lookup(OpenAIToolDefinitionToJson(o).fields, "function") == Some(OpenAIFunctionToJson(o.func))
  {
    var fj := OpenAIFunctionToJson(o.func);
    var rest := [("function", fj)] + o.extras;
    assert OpenAIToolDefinitionToJson(o).fields == [("type", Str("function"))] + rest;
    LookupCons("type", Str("function"), rest, "function");
    LookupCons("function", fj, o.extras, "function");
  }

  /** A `function` object whose parameters parse to a schema with a non-boolean `strict` is refused. */
  lemma ParseOpenAIFunctionRejects(fn: Json, s: JsonSchema)
    requires fn.Object? && Lookup(fn.fields, "parameters").Some?
    requires ParseJsonSchema(Lookup(fn.fields, "parameters").value) == Some(s) && !StrictOk(s)
    ensures ParseOpenAIFunction(fn).None?
  {
  }

  /** The OpenAI schema refuses a definition whose `parameters.strict` is present and not a boolean. */
  lemma RejectsNonBooleanStrict(o: OpenAIToolDefinition)
    requires JsonSchemaWellFormed(o.func.parameters) && !StrictOk(o.func.parameters)
    ensures ParseOpenAIToolDefinition(OpenAIToolDefinitionToJson(o)).None?
  {
    var fn := OpenAIFunctionToJson(o.func);
    ToolFunctionLookup(o);
    FunctionParametersLookup(o.func);
    JsonSchemaRoundTrip(o.func.parameters);
    ParseOpenAIFunctionRejects(fn, o.func.parameters);
  }

  /**
   * Round trip: an Anthropic definition that the OpenAI schema does not also accept comes back
   * unchanged from `fromOpenAIFormat(toOpenAIFormat(a), "ANTHROPIC")`, provided its
   * `input_schema` carries no non-boolean `strict`.
   */
  lemma AnthropicRoundTrip(j: Json)
    requires ParseOpenAIToolDefinition(j).None? && ParseAnthropicToolDefinition(j).Some?
    requires StrictOk(ParseAnthropicToolDefinition(j).value.inputSchema)
    ensures ToOpenAIFormat(j).Ok?
    ensures FromOpenAIFormat(ToOpenAIFormat(j).value, Anthropic) == Ok(AnthropicDefinition(ParseAnthropicToolDefinition(j).value))
  {
    var a := ParseAnthropicToolDefinition(j).value;
    var o := OpenAIFromAnthropic(a);
    assert ToOpenAIFormat(j) == Ok(o);
    OpenAIFromAnthropicIsValid(a);
  }

  /** The OpenAI definition made from an Anthropic one is valid when its schema's `strict` is, and converts back to it. */
  lemma OpenAIFromAnthropicIsValid(a: AnthropicToolDefinition)
    requires JsonSchemaWellFormed(a.inputSchema) && StrictOk(a.inputSchema)
    ensures ValidOpenAIToolDefinition(OpenAIFromAnthropic(a))
    ensures AnthropicFromOpenAI(OpenAIFromAnthropic(a)) == a
  {
    var o := OpenAIFromAnthropic(a);
    assert KeysAvoid(o.extras, ToolKeys) by {
      assert o.extras == [("id", Str(""))];
    }
  }

  /**
   * The same round trip throws when `input_schema` has a `strict` entry that is not a boolean:
   * `toOpenAIFormat` copies it into `parameters`, whose schema then refuses it.
   */
  lemma AnthropicRoundTripRejectsNonBooleanStrict(j: Json)
    requires ParseOpenAIToolDefinition(j).None? && ParseAnthropicToolDefinition(j).Some?
    requires !StrictOk(ParseAnthropicToolDefinition(j).value.inputSchema)
    ensures ToOpenAIFormat(j).Ok?
    ensures FromOpenAIFormat(ToOpenAIFormat(j).value, Anthropic) == Err(InvalidToolDefinition)
  {
  }

  /** An OpenAI definition passes through the Anthropic format with its name and parameters; its description comes back, or its name when it had none. */
  lemma OpenAIRoundTripThroughAnthropic(o: OpenAIToolDefinition)
    requires ValidOpenAIToolDefinition(o)
    ensures FromOpenAIFormat(o, Anthropic).Ok? && FromOpenAIFormat(o, Anthropic).value.AnthropicDefinition?
    ensures var a := FromOpenAIFormat(o, Anthropic).value.anthropic;
      var back := ToOpenAIFormat(AnthropicToolDefinitionToJson(a));
      && back.Ok?
      && back.value.func.name == o.func.name
      && back.value.func.parameters == o.func.parameters
      && back.value.func.description == Some(o.func.description.GetOr(o.func.name))
  {
    var a := AnthropicFromOpenAI(o);
    assert FromOpenAIFormat(o, Anthropic) == Ok(AnthropicDefinition(a));
    var j := AnthropicToolDefinitionToJson(a);
    AnthropicJsonIsNotOpenAI(a);
    AnthropicToolDefinitionRoundTrip(a);
    assert ToOpenAIFormat(j) == Ok(OpenAIFromAnthropic(a));
  }
}
