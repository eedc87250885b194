/** Foreign tool schemas: what is translated, what the validator then accepts, and that both mean the same. */
module McpSchema {
  import opened Wrappers
  import opened Json

  const MAX_SCHEMA_PROPS: nat := 50
  const MAX_SCHEMA_DEPTH: nat := 5
  const MAX_STRING_LENGTH: nat := 10000
  const MAX_DESCRIPTION: nat := 500

  const BANNED: set<string> := {
    "$ref", "$defs", "definitions", "allOf", "anyOf", "oneOf", "not", "if", "then", "else", "patternProperties"
  }

  /** Length of the serialized text, a foreign call. */
  type Size = Value -> nat

  // ---------- Translation ----------

  predicate Screened(node: Value)
    requires node.Object?
  {
    && (forall k <- BANNED :: k !in node.fields)
    && (node.Get("additionalProperties").None? || node.Get("additionalProperties") == Some(Bool(false)))
  }

  predicate RequiredOk(required: Option<Value>, names: set<string>) {
    required.Some? ==> required.value.Array? && forall item <- required.value.items :: item.Str? && item.s in names
  }

  function Put(fields: map<string, Value>, name: string, v: Option<Value>): map<string, Value> {
    if v.Some? then fields[name := v.value] else fields
  }

  /** The keywords of the node's type. */
  function TypePart(node: Value, depth: nat, size: Size): Option<map<string, Value>>
    requires node.Object? && depth <= MAX_SCHEMA_DEPTH
    decreases MAX_SCHEMA_DEPTH + 1 - depth, 0
  {
    match node.Get("type")
    case None => if node.Get("enum").Some? then Some(map[]) else None
    case Some(Str(t)) =>
      if t in {"string", "number", "integer", "boolean"} then Some(map["type" := Str(t)])
      else if t == "array" then
        var items := if node.Get("items").None? then None else Translate(node.Get("items").value, depth + 1, size);
        if items.None? then None else Some(map["type" := Str("array"), "items" := items.value])
      else if t == "object" then
        var declared := node.Get("properties");
        var properties := if declared.None? then None else TranslateAll(declared.value, depth + 1, size);
        if properties.None? || !RequiredOk(node.Get("required"), declared.value.fields.Keys) then None
        else Some(Put(map["type" := Str("object"), "properties" := Object(properties.value),
                          "additionalProperties" := Bool(false)],
                      "required", node.Get("required")))
      else None
    case Some(_) => None
  }

  /** Every declared property translated. */
  function TranslateAll(declared: Value, depth: nat, size: Size): (r: Option<map<string, Value>>)
    ensures r.Some? ==> declared.Object? && r.value.Keys == declared.fields.Keys
    decreases MAX_SCHEMA_DEPTH + 1 - depth, 2
  {
    if !declared.Object? || |declared.fields| > MAX_SCHEMA_PROPS then None
    else if exists k <- declared.fields :: Translate(declared.fields[k], depth, size).None? then None
    else Some(map k | k in declared.fields :: Translate(declared.fields[k], depth, size).value)
  }

  function Translate(node: Value, depth: nat, size: Size): Option<Value>
    decreases MAX_SCHEMA_DEPTH + 1 - depth, 1
  {
    if !node.Object? || depth > MAX_SCHEMA_DEPTH || !Screened(node) then None
    else
      match TypePart(node, depth, size)
      case None => None
      case Some(part) =>
        var options, description, fallback := node.Get("enum"), node.Get("description"), node.Get("default");
        if options.Some? && (!options.value.Array? || options.value.items == []) then None
        else if description.Some? && !description.value.Str? then None
        else if fallback.Some? && size(fallback.value) > MAX_STRING_LENGTH then None
        else
          Some(Object(Put(Put(Put(part, "enum", options),
                              "description",
                                  if description.Some? then Some(Str(Shorten(description.value.s))) else None),
                          "default", fallback)))
  }

  function Shorten(s: string): string {
    if |s| <= MAX_DESCRIPTION then s else s[..MAX_DESCRIPTION]
  }

  /** The whole input schema; its own other keywords are neither screened nor kept. */
  function ToArgsSchema(input: Value, size: Size): Option<Value> {
    if !input.Object? || (input.Get("type").Some? && input.Get("type") != Some(Str("object")))
       || input.Get("properties").None? then None
    else
      var declared := input.Get("properties").value;
      var properties := TranslateAll(declared, 0, size);
      if properties.None? || !RequiredOk(input.Get("required"), declared.fields.Keys) then None
      else Some(Object(map["type" := Str("object"), "additionalProperties" := Bool(false),
                           "required" := if input.Get("required").Some? then input.Get("required").value else Array([]),
                           "properties" := Object(properties.value)]))
  }

  // ---------- The validator ----------

  predicate IsWhole(x: real) {
    x == x.Floor as real
  }

  /** `value[name] !== undefined`, inherited names included. */
  predicate Reads(v: Value, name: string) {
    v.Get(name).Some? || name in INHERITED
  }

  /** Same primitive value; two structures are never the same object, and 0 is not -0. */
  predicate SameValue(a: Value, b: Value) {
    a == b && !a.Array? && !a.Object?
  }

  predicate CodedEnum(options: Option<Value>, v: Value) {
    options.Some? && options.value.Array? ==> exists o <- options.value.items :: SameValue(o, v)
  }

  predicate CodedRequired(required: Option<Value>, v: Value) {
    required.Some? && required.value.Array? ==> forall item <- required.value.items :: item.Str? ==> Reads(v, item.s)
  }

  /** The validator says yes. `__proto__` looks up the shared prototype, a record that passes anything. */
  predicate Passes(node: Value, v: Value)
    decreases v
  {
    && CodedEnum(node.Get("enum"), v)
    && match node.Get("type")
       case None => true
       case Some(t) =>
         if t == Str("string") then v.Str?
         else if t == Str("number") then v.Numeric().Some?
         else if t == Str("integer") then v.Numeric().Some? && IsWhole(v.Numeric().value)
         else if t == Str("boolean") then v.Bool?
         else if t == Str("array") then
           && v.Array? && node.Get("items").Some? && node.Get("items").value.Object?
           && forall i :: 0 <= i < |v.items| ==> Passes(node.Get("items").value, v.items[i])
         else if t == Str("object") then
           && v.Object? && node.Get("properties").Some? && node.Get("properties").value.Object?
           && CodedRequired(node.Get("required"), v)
           && forall k :: k in v.fields ==>
                var child := node.Get("properties").value.Get(k);
                if child.Some? then child.value.Object? && Passes(child.value, v.fields[k]) else k == "__proto__"
         else false
  }

  /** Some check, in some order, can end in "invalid schema" or "unsupported type". */
  predicate Faulty(node: Value, v: Value)
    decreases v
  {
    match node.Get("type")
    case None => false
    case Some(t) =>
      if t in {Str("string"), Str("number"), Str("integer"), Str("boolean")} then false
      else if t == Str("array") then
        v.Array? && (node.Get("items").None? || !node.Get("items").value.Object?
                     || exists i :: 0 <= i < |v.items| && Faulty(node.Get("items").value, v.items[i]))
      else if t == Str("object") then
        v.Object? && (node.Get("properties").None? || !node.Get("properties").value.Object?
                      || exists k :: k in v.fields && k in node.Get("properties").value.fields
                                     && Faulty(node.Get("properties").value.fields[k], v.fields[k]))
      else true
  }

  /** The root check: an inherited name finds something truthy without keywords, so such an argument always passes. */
  predicate ArgsPass(schema: Value, args: map<string, Value>)
    requires schema.Get("properties").Some? && schema.Get("properties").value.Object?
  {
    && CodedRequired(schema.Get("required"), Object(args))
    && forall k :: k in args ==>
         var child := schema.Get("properties").value.Get(k);
         if child.Some? then Passes(child.value, args[k]) else k in INHERITED
  }

  // ---------- Meaning of the kept keywords ----------

  /** Equality of JSON instances: numbers by value, structures by content. */
  predicate JsonEqual(a: Value, b: Value)
    decreases a
  {
    if a.Numeric().Some? then a.Numeric() == b.Numeric()
    else if a.Array?
      then b.Array? && |a.items| == |b.items| && forall i :: 0 <= i < |a.items| ==> JsonEqual(a.items[i], b.items[i])
    else if a.Object?
      then b.Object? && a.fields.Keys == b.fields.Keys && forall k :: k in a.fields ==>
            JsonEqual(a.fields[k], b.fields[k])
    else a == b
  }

  predicate MeansEnum(options: Option<Value>, v: Value) {
    options.Some? ==> options.value.Array? && exists o <- options.value.items :: JsonEqual(o, v)
  }

  predicate MeansRequired(required: Option<Value>, v: Value) {
    required.Some? && required.value.Array? ==> forall item <- required.value.items :: item.Str? ==> v.Get(item.s).Some?
  }

  predicate IsOfType(name: Value, v: Value) {
    || (name == Str("string") && v.Str?)
    || (name == Str("number") && v.Numeric().Some?)
    || (name == Str("integer") && v.Numeric().Some? && IsWhole(v.Numeric().value))
    || (name == Str("boolean") && v.Bool?)
    || (name == Str("null") && v.Null?)
    || (name == Str("array") && v.Array?)
    || (name == Str("object") && v.Object?)
  }

  /** `type`: one name, or a list of them. */
  predicate MeansType(t: Option<Value>, v: Value) {
    t.Some? ==> IsOfType(t.value, v) || (t.value.Array? && exists name <- t.value.items :: IsOfType(name, v))
  }

  /** The schema for the value under a key: declared, or `additionalProperties`; none puts no bound on it. */
  function RuleFor(schema: Value, k: string): Option<Value> {
    var declared := if schema.Get("properties").Some? then schema.Get("properties").value.Get(k) else None;
    if declared.Some? then declared else schema.Get("additionalProperties")
  }

  /**
   * `type`, `enum`, `items`, `properties`, `required` and `additionalProperties` as the standard reads them: each
   * applies to values of its kind only, and a keyword that is absent asks for nothing.
   */
  predicate Accepts(schema: Value, v: Value)
    decreases v
  {
    if schema.Bool? then schema.b
    else
      && schema.Object? && MeansType(schema.Get("type"), v) && MeansEnum(schema.Get("enum"), v)
      && (v.Array? && schema.Get("items").Some? ==> forall i :: 0 <= i < |v.items| ==>
          Accepts(schema.Get("items").value, v.items[i]))
      && (v.Object? ==>
            && MeansRequired(schema.Get("required"), v)
            && forall k :: k in v.fields && RuleFor(schema, k).Some? ==> Accepts(RuleFor(schema, k).value, v.fields[k]))
  }

  /** The same for the arguments of a tool, under `required`, `properties` and `additionalProperties` of its schema. */
  predicate AcceptsArgs(schema: Value, args: map<string, Value>) {
    && MeansRequired(schema.Get("required"), Object(args))
    && forall k :: k in args && RuleFor(schema, k).Some? ==> Accepts(RuleFor(schema, k).value, args[k])
  }
}
