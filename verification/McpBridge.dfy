/** The translator and the validator as the recursive loops they are. */
module McpBridge {
  import opened Wrappers
  import opened Json
  import opened McpSchema

  datatype Complaint = NotAllowed | WrongType | MissingArg | UnknownArg | InvalidSchema | UnsupportedType

  /** Every declared property in turn; the first failure hides the tool. */
  method TranslateProperties(declared: Value, depth: nat, size: Size) returns (r: Option<map<string, Value>>)
    ensures r == TranslateAll(declared, depth, size)
    decreases MAX_SCHEMA_DEPTH + 1 - depth, 2
  {
    hide Translate;
    if !declared.Object? || |declared.fields| > MAX_SCHEMA_PROPS {
      return None;
    }
    var rest, out: map<string, Value> := declared.fields.Keys, map[];
    while rest != {}
      invariant rest <= declared.fields.Keys && out.Keys == declared.fields.Keys - rest
      invariant forall k <- out :: Translate(declared.fields[k], depth, size) == Some(out[k])
      decreases |rest|
    {
      var k :| k in rest;
      var translated := TranslateNode(declared.fields[k], depth, size);
      if translated.None? {
        return None;
      }
      out, rest := out[k := translated.value], rest - {k};
    }
    assert out == map k | k in declared.fields :: Translate(declared.fields[k], depth, size).value;
    r := Some(out);
  }

  method TranslateNode(node: Value, depth: nat, size: Size) returns (r: Option<Value>)
    ensures r == Translate(node, depth, size)
    decreases MAX_SCHEMA_DEPTH + 1 - depth, 1
  {
    hide TranslateAll, RequiredOk, Screened, TypePart;
    if !node.Object? || depth > MAX_SCHEMA_DEPTH || !Screened(node) {
      return None;
    }
    var part := TranslateType(node, depth, size);
    if part.None? {
      return None;
    }
    var out := part.value;
    var options, description, fallback := node.Get("enum"), node.Get("description"), node.Get("default");
    if options.Some? {
      if !options.value.Array? || |options.value.items| == 0 {
        return None;
      }
      out := out["enum" := options.value];
    }
    if description.Some? {
      if !description.value.Str? {
        return None;
      }
      out := out["description" := Str(Shorten(description.value.s))];
    }
    if fallback.Some? {
      if size(fallback.value) > MAX_STRING_LENGTH {
        return None;
      }
      out := out["default" := fallback.value];
    }
    r := Some(Object(out));
  }

  method TranslateType(node: Value, depth: nat, size: Size) returns (r: Option<map<string, Value>>)
    requires node.Object? && depth <= MAX_SCHEMA_DEPTH
    ensures r == TypePart(node, depth, size)
    decreases MAX_SCHEMA_DEPTH + 1 - depth, 0
  {
    hide TranslateAll, RequiredOk, Translate;
    var t := node.Get("type");
    if t.None? {
      return if node.Get("enum").Some? then Some(map[]) else None;
    }
    if t.value in {Str("string"), Str("number"), Str("integer"), Str("boolean")} {
      return Some(map["type" := t.value]);
    }
    if t.value == Str("array") {
      if node.Get("items").None? {
        return None;
      }
      var items := TranslateNode(node.Get("items").value, depth + 1, size);
      return if items.None? then None else Some(map["type" := Str("array"), "items" := items.value]);
    }
    if t.value == Str("object") {
      if node.Get("properties").None? {
        return None;
      }
      var declared := node.Get("properties").value;
      var properties := TranslateProperties(declared, depth + 1, size);
      if properties.None? {
        return None;
      }
      var required := node.Get("required");
      if !RequiredOk(required, declared.fields.Keys) {
        return None;
      }
      var out := map["type" := Str("object"), "properties" := Object(properties.value),
                     "additionalProperties" := Bool(false)];
      return Some(if required.Some? then out["required" := required.value] else out);
    }
    r := None;
  }

  /** The closed args schema of a tool, or nothing if the tool stays hidden. */
  method ToArgsSchema(input: Value, size: Size) returns (r: Option<Value>)
    ensures r == McpSchema.ToArgsSchema(input, size)
  {
    hide TranslateAll;
    if !input.Object? || (input.Get("type").Some? && input.Get("type").value != Str("object"))
       || input.Get("properties").None? {
      return None;
    }
    var declared := input.Get("properties").value;
    var properties := TranslateProperties(declared, 0, size);
    if properties.None? {
      return None;
    }
    var required := Array([]);
    if input.Get("required").Some? {
      if !RequiredOk(input.Get("required"), declared.fields.Keys) {
        return None;
      }
      required := input.Get("required").value;
    }
    r := Some(Object(map["type" := Str("object"), "additionalProperties" := Bool(false), "required" := required,
                         "properties" := Object(properties.value)]));
  }

  method CheckItems(items: Value, values: seq<Value>) returns (r: Option<Complaint>)
    ensures r.None? <==> forall i :: 0 <= i < |values| ==> Passes(items, values[i])
    ensures r.Some? && (r.value.InvalidSchema? || r.value.UnsupportedType?) ==>
              exists i :: 0 <= i < |values| && Faulty(items, values[i])
    decreases values, 0
  {
    hide Passes, Faulty;
    var i := 0;
    while i < |values|
      invariant 0 <= i <= |values| && forall k :: 0 <= k < i ==> Passes(items, values[k])
    {
      r := CheckNode(items, values[i]);
      if r.Some? {
        return;
      }
      i := i + 1;
    }
    r := None;
  }

  ghost predicate FieldPasses(properties: map<string, Value>, fields: map<string, Value>, k: string)
    requires k in fields
  {
    if k in properties then properties[k].Object? && Passes(properties[k], fields[k]) else k == "__proto__"
  }

  /** The keys of an object in any order, each against its declared child. */
  method CheckFields(properties: map<string, Value>, v: Value) returns (r: Option<Complaint>)
    requires v.Object?
    ensures r.None? <==> forall k :: k in v.fields ==> FieldPasses(properties, v.fields, k)
    ensures r.Some? && (r.value.InvalidSchema? || r.value.UnsupportedType?) ==>
              exists k :: k in v.fields && k in properties && Faulty(properties[k], v.fields[k])
    decreases v, 0
  {
    hide Passes, Faulty;
    var fields := v.fields;
    var rest := fields.Keys;
    while rest != {}
      invariant rest <= fields.Keys && forall k :: k in fields && k !in rest ==> FieldPasses(properties, fields, k)
      decreases |rest|
    {
      var k :| k in rest;
      if k in properties {
        if !properties[k].Object? {
          return Some(UnknownArg);
        }
        r := CheckNode(properties[k], v.fields[k]);
        if r.Some? {
          return;
        }
      } else if k != "__proto__" {
        return Some(UnknownArg);
      }
      rest := rest - {k};
    }
    r := None;
  }

  /** No complaint exactly when the value passes; a complaint about the schema only for a faulty one. */
  method CheckNode(node: Value, v: Value) returns (r: Option<Complaint>)
    ensures r.None? <==> Passes(node, v)
    ensures r.Some? && (r.value.InvalidSchema? || r.value.UnsupportedType?) ==> Faulty(node, v)
    decreases v, 1
  {
    hide CodedEnum, CodedRequired, IsWhole;
    if !CodedEnum(node.Get("enum"), v) {
      return Some(NotAllowed);
    }
    var t := node.Get("type");
    if t.None? {
      return None;
    }
    if t.value == Str("array") {
      if !v.Array? {
        return Some(WrongType);
      }
      if node.Get("items").None? || !node.Get("items").value.Object? {
        return Some(InvalidSchema);
      }
      r := CheckItems(node.Get("items").value, v.items);
      return;
    }
    if t.value == Str("object") {
      if !v.Object? {
        return Some(WrongType);
      }
      if node.Get("properties").None? || !node.Get("properties").value.Object? {
        return Some(InvalidSchema);
      }
      if !CodedRequired(node.Get("required"), v) {
        return Some(MissingArg);
      }
      r := CheckFields(node.Get("properties").value.fields, v);
      return;
    }
    r := CheckScalar(t.value, v);
  }

  method CheckScalar(t: Value, v: Value) returns (r: Option<Complaint>)
    requires t != Str("array") && t != Str("object")
    ensures r.None? <==>
            match t
            case Str("string") => v.Str?
            case Str("number") => v.Numeric().Some?
            case Str("integer") => v.Numeric().Some? && IsWhole(v.Numeric().value)
            case Str("boolean") => v.Bool?
            case _ => false
    ensures r == Some(UnsupportedType) <==> t !in {Str("string"), Str("number"), Str("integer"), Str("boolean")}
    ensures r != Some(InvalidSchema)
  {
    var ok;
    if t == Str("string") {
      ok := v.Str?;
    } else if t == Str("number") {
      ok := v.Numeric().Some?;
    } else if t == Str("integer") {
      ok := v.Numeric().Some? && IsWhole(v.Numeric().value);
    } else if t == Str("boolean") {
      ok := v.Bool?;
    } else {
      return Some(UnsupportedType);
    }
    r := if ok then None else Some(WrongType);
  }

  /** A call's arguments against its translated schema. */
  method ValidateForeignArgs(schema: Value, args: map<string, Value>) returns (r: Option<Complaint>)
    requires schema.Get("properties").Some? && schema.Get("properties").value.Object?
    ensures r.None? <==> ArgsPass(schema, args)
  {
    hide CodedRequired, Passes;
    if !CodedRequired(schema.Get("required"), Object(args)) {
      return Some(MissingArg);
    }
    var rest := args.Keys;
    var properties := schema.Get("properties").value;
    while rest != {}
      invariant rest <= args.Keys
      invariant forall k :: k in args && k !in rest ==>
                  if properties.Get(k).Some? then Passes(properties.Get(k).value, args[k]) else k in INHERITED
      decreases |rest|
    {
      var k :| k in rest;
      if properties.Get(k).Some? {
        r := CheckNode(properties.Get(k).value, args[k]);
        if r.Some? {
          return;
        }
      } else if k !in INHERITED {
        return Some(UnknownArg);
      }
      rest := rest - {k};
    }
    r := None;
  }
}
