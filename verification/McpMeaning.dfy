/** Translation keeps the meaning of a schema, with the exact conditions under which each keyword does. */
module McpMeaning {
  import opened Wrappers
  import opened Json
  import opened McpSchema

  // ---------- Conditions, keyword by keyword ----------

  /** Every option is a primitive, and the two zeros come together or not at all. */
  predicate EnumFits(options: seq<Value>) {
    && (forall o <- options :: !o.Array? && !o.Object?)
    && (Number(0.0) in options <==> NegativeZero in options)
  }

  lemma {:induction false} SameJson(v: Value)
    ensures JsonEqual(v, v)
    decreases v
  {
    if v.Array? {
      forall i | 0 <= i < |v.items|
        ensures JsonEqual(v.items[i], v.items[i])
      {
        SameJson(v.items[i]);
      }
    } else if v.Object? {
      forall k | k in v.fields
        ensures JsonEqual(v.fields[k], v.fields[k])
      {
        SameJson(v.fields[k]);
      }
    }
  }

  lemma EnumHolds(options: seq<Value>, v: Value)
    requires EnumFits(options)
    ensures CodedEnum(Some(Array(options)), v) <==> MeansEnum(Some(Array(options)), v)
  {
    if CodedEnum(Some(Array(options)), v) {
      var o :| o in options && SameValue(o, v);
      SameJson(o);
    }
    if MeansEnum(Some(Array(options)), v) {
      var o :| o in options && JsonEqual(o, v);
      if o.Numeric() == Some(0.0) && v.Numeric() == Some(0.0) {
        assert v in options && SameValue(v, v);
      } else {
        assert SameValue(o, v);
      }
    }
  }

  /** The enum check means the keyword for every value exactly when the options are of that kind. */
  lemma EnumAgreement(options: seq<Value>)
    ensures (forall v :: CodedEnum(Some(Array(options)), v) <==> MeansEnum(Some(Array(options)), v)) <==>
            EnumFits(options)
  {
    if EnumFits(options) {
      forall v
        ensures CodedEnum(Some(Array(options)), v) <==> MeansEnum(Some(Array(options)), v)
      {
        EnumHolds(options, v);
      }
    } else {
      var o := EnumMisfit(options);
      assert !(CodedEnum(Some(Array(options)), o) <==> MeansEnum(Some(Array(options)), o));
    }
  }

  lemma EnumMisfit(options: seq<Value>) returns (v: Value)
    requires !EnumFits(options)
    ensures !CodedEnum(Some(Array(options)), v) && MeansEnum(Some(Array(options)), v)
  {
    if o :| o in options && (o.Array? || o.Object?) {
      v := o;
      SameJson(o);
    } else {
      v := if Number(0.0) in options then NegativeZero else Number(0.0);
      var o := if Number(0.0) in options then Number(0.0) else NegativeZero;
      assert o in options && JsonEqual(o, v);
    }
  }

  predicate NamesFit(required: seq<Value>) {
    forall item <- required :: item.Str? ==> item.s !in INHERITED
  }

  /** The required check means the keyword for every object exactly when no required name is inherited. */
  lemma RequiredAgreement(required: seq<Value>)
    ensures (forall fields :: CodedRequired(Some(Array(required)), Object(fields)) <==>
             MeansRequired(Some(Array(required)), Object(fields)))
            <==> NamesFit(required)
  {
    if !NamesFit(required) {
      var names := set item | item in required && item.Str? && item.s !in INHERITED :: item.s;
      var fields: map<string, Value> := map k | k in names :: Null;
      assert forall item <- required :: item.Str? ==> (item.s in names || item.s in INHERITED);
      assert CodedRequired(Some(Array(required)), Object(fields));
      var item :| item in required && item.Str? && item.s in INHERITED;
      assert item.s !in names;
      assert !MeansRequired(Some(Array(required)), Object(fields));
    }
  }

  /** Both conditions at every node, and no property declared under the name of the prototype. */
  predicate Good(schema: Value)
    decreases schema
  {
    && (schema.Get("enum").Some? && schema.Get("enum").value.Array? ==> EnumFits(schema.Get("enum").value.items))
    && (schema.Get("required").Some? && schema.Get("required").value.Array? ==>
        NamesFit(schema.Get("required").value.items))
    && (schema.Object? ==>
          && ("items" in schema.fields ==> Good(schema.fields["items"]))
          && ("properties" in schema.fields ==> GoodAll(schema.fields["properties"])))
  }

  predicate GoodAll(declared: Value)
    decreases declared
  {
    declared.Object? ==> "__proto__" !in declared.fields && forall k :: k in declared.fields ==>
          Good(declared.fields[k])
  }

  /** No object inside the value uses the prototype's name. */
  predicate NoProto(v: Value)
    decreases v
  {
    && (v.Array? ==> forall i :: 0 <= i < |v.items| ==> NoProto(v.items[i]))
    && (v.Object? ==> "__proto__" !in v.fields && forall k :: k in v.fields ==> NoProto(v.fields[k]))
  }

  // ---------- What a translated node looks like ----------

  lemma TranslatedFields(node: Value, depth: nat, size: Size)
    requires Translate(node, depth, size).Some?
    ensures node.Object? && depth <= MAX_SCHEMA_DEPTH && TypePart(node, depth, size).Some?
    ensures var out := Translate(node, depth, size).value;
            && out.Object? && out.Get("type") == node.Get("type") && out.Get("enum") == node.Get("enum")
            && (node.Get("enum").Some? ==> node.Get("enum").value.Array?)
            && out.Get("items") ==
                (if node.Get("type") == Some(Str("array")) then Translate(node.Get("items").value, depth + 1, size)
                    else None)
            && (node.Get("type") == Some(Str("object")) ==>
                  && node.Get("properties").Some?
                  && TranslateAll(node.Get("properties").value, depth + 1, size).Some?
                  && out.Get("properties") ==
                      Some(Object(TranslateAll(node.Get("properties").value, depth + 1, size).value))
                  && out.Get("required") == node.Get("required"))
  {
    hide TranslateAll, Screened, TypePart;
    TypeFields(node, depth, size);
  }

  /** The keywords of the type, and no others. */
  lemma TypeFields(node: Value, depth: nat, size: Size)
    requires node.Object? && depth <= MAX_SCHEMA_DEPTH && TypePart(node, depth, size).Some?
    ensures var part := Object(TypePart(node, depth, size).value);
            && part.Get("type") == node.Get("type") && part.Get("enum").None?
            && part.Get("items") ==
                (if node.Get("type") == Some(Str("array")) then Translate(node.Get("items").value, depth + 1, size)
                    else None)
            && (node.Get("type") == Some(Str("object")) ==>
                  && node.Get("properties").Some?
                  && TranslateAll(node.Get("properties").value, depth + 1, size).Some?
                  && part.Get("properties") ==
                      Some(Object(TranslateAll(node.Get("properties").value, depth + 1, size).value))
                  && part.Get("required") == node.Get("required"))
            && (node.Get("type") == Some(Str("array")) ==> node.Get("items").Some?)
  {
    hide TranslateAll, Translate, RequiredOk;
  }

  lemma TranslatedChild(declared: Value, depth: nat, size: Size, k: string)
    requires TranslateAll(declared, depth, size).Some? && k in declared.fields
    ensures Translate(declared.fields[k], depth, size).Some?
    ensures TranslateAll(declared, depth, size).value[k] == Translate(declared.fields[k], depth, size).value
  {
  }

  lemma KnownType(node: Value, depth: nat, size: Size)
    requires Translate(node, depth, size).Some?
    ensures node.Get("type").None?
            || node.Get("type").value in {Str("string"), Str("number"), Str("integer"), Str("boolean"), Str("array"),
                                          Str("object")}
  {
    hide TranslateAll, Screened, RequiredOk;
  }

  // ---------- No fault ----------

  /** Checking against a translated node never ends in a complaint about the schema. */
  lemma {:induction false} NeverFaulty(node: Value, depth: nat, size: Size, v: Value)
    requires Translate(node, depth, size).Some?
    ensures !Faulty(Translate(node, depth, size).value, v)
    decreases v
  {
    hide Translate, TranslateAll;
    var out := Translate(node, depth, size).value;
    TranslatedFields(node, depth, size);
    KnownType(node, depth, size);
    if node.Get("type") == Some(Str("array")) && v.Array? {
      var items := node.Get("items").value;
      TranslatedFields(items, depth + 1, size);
      forall i | 0 <= i < |v.items|
        ensures !Faulty(out.Get("items").value, v.items[i])
      {
        NeverFaulty(items, depth + 1, size, v.items[i]);
      }
    } else if node.Get("type") == Some(Str("object")) && v.Object? {
      var declared := node.Get("properties").value;
      forall k | k in v.fields && k in out.Get("properties").value.fields
        ensures !Faulty(out.Get("properties").value.fields[k], v.fields[k])
      {
        TranslatedChild(declared, depth + 1, size, k);
        NeverFaulty(declared.fields[k], depth + 1, size, v.fields[k]);
      }
    }
  }

  /** Nesting of a schema at most `k` levels. */
  predicate NestedWithin(node: Value, k: nat)
    decreases k
  {
    && k > 0
    && (node.Get("items").Some? ==> NestedWithin(node.Get("items").value, k - 1))
    && (node.Get("properties").Some? && node.Get("properties").value.Object? ==>
          forall n :: n in node.Get("properties").value.fields ==>
                NestedWithin(node.Get("properties").value.fields[n], k - 1))
  }

  lemma {:induction false} NestingBounded(node: Value, depth: nat, size: Size)
    requires Translate(node, depth, size).Some?
    ensures NestedWithin(Translate(node, depth, size).value, MAX_SCHEMA_DEPTH + 1 - depth)
    decreases MAX_SCHEMA_DEPTH + 1 - depth
  {
    hide Translate, TranslateAll;
    var out := Translate(node, depth, size).value;
    TranslatedFields(node, depth, size);
    PropertiesOnlyOfObjects(node, depth, size);
    if node.Get("type") == Some(Str("array")) {
      TranslatedFields(node.Get("items").value, depth + 1, size);
      NestingBounded(node.Get("items").value, depth + 1, size);
    } else if node.Get("type") == Some(Str("object")) {
      var declared := node.Get("properties").value;
      forall n | n in out.Get("properties").value.fields
        ensures depth < MAX_SCHEMA_DEPTH
                && NestedWithin(out.Get("properties").value.fields[n], MAX_SCHEMA_DEPTH - depth)
      {
        TranslatedChild(declared, depth + 1, size, n);
        TranslatedFields(declared.fields[n], depth + 1, size);
        NestingBounded(declared.fields[n], depth + 1, size);
      }
    }
  }

  lemma PropertiesOnlyOfObjects(node: Value, depth: nat, size: Size)
    requires Translate(node, depth, size).Some?
    ensures node.Get("type") != Some(Str("object")) ==> Translate(node, depth, size).value.Get("properties").None?
  {
    hide TranslateAll, Screened, RequiredOk;
  }

  // ---------- Meaning ----------

  predicate Declares(schema: Value, k: string) {
    schema.Get("properties").Some? && schema.Get("properties").value.Get(k).Some?
  }

  /** No object in the value has a key the schema does not declare for it. */
  predicate Covered(schema: Value, v: Value)
    decreases v
  {
    && (v.Array? && schema.Get("items").Some? ==> forall i :: 0 <= i < |v.items| ==>
        Covered(schema.Get("items").value, v.items[i]))
    && (v.Object? ==>
          forall k :: k in v.fields ==>
            Declares(schema, k) && Covered(schema.Get("properties").value.fields[k], v.fields[k]))
  }

  /** The validator on the translation accepts exactly what the source schema accepts without undeclared keys. */
  lemma {:induction false} TranslationKeepsMeaning(node: Value, depth: nat, size: Size, v: Value)
    requires Translate(node, depth, size).Some? && Good(node) && NoProto(v)
    ensures Passes(Translate(node, depth, size).value, v) <==> Accepts(node, v) && Covered(node, v)
    decreases v
  {
    hide Translate, TranslateAll, EnumFits, CodedEnum, MeansEnum, NamesFit, CodedRequired, MeansRequired, IsWhole;
    var out := Translate(node, depth, size).value;
    TranslatedFields(node, depth, size);
    KnownType(node, depth, size);
    EnumKept(node, v);
    if node.Get("type") == Some(Str("array")) && v.Array? {
      var items := node.Get("items").value;
      TranslatedFields(items, depth + 1, size);
      forall i | 0 <= i < |v.items|
        ensures Passes(out.Get("items").value, v.items[i]) <==> Accepts(items, v.items[i]) && Covered(items, v.items[i])
      {
        TranslationKeepsMeaning(items, depth + 1, size, v.items[i]);
      }
      ArrayCase(node, out, v, items);
    } else if node.Get("type") == Some(Str("object")) && v.Object? {
      RequiredKept(node, v);
      var declared := node.Get("properties").value;
      forall k | k in v.fields && k in declared.fields
        ensures var child := out.Get("properties").value.fields[k];
                child.Object?
                    && (Passes(child, v.fields[k]) <==>
                        Accepts(declared.fields[k], v.fields[k]) && Covered(declared.fields[k], v.fields[k]))
      {
        TranslatedChild(declared, depth + 1, size, k);
        TranslatedFields(declared.fields[k], depth + 1, size);
        TranslationKeepsMeaning(declared.fields[k], depth + 1, size, v.fields[k]);
      }
      ScreenedNode(node, depth, size);
      ObjectCase(node, out, v, declared);
    } else {
      ScalarCase(node, out, v);
    }
  }

  /** A value that is not a structure, or not the one the type asks for. */
  lemma ScalarCase(node: Value, out: Value, v: Value)
    requires node.Object? && out.Get("type") == node.Get("type")
    requires node.Get("type").None? ==> node.Get("enum").Some? && node.Get("enum").value.Array?
    requires node.Get("type").Some? ==>
               node.Get("type").value in {Str("string"), Str("number"), Str("integer"), Str("boolean"), Str("array"),
                                          Str("object")}
    requires Good(node) && (CodedEnum(out.Get("enum"), v) <==> MeansEnum(node.Get("enum"), v))
             && out.Get("enum") == node.Get("enum")
    requires node.Get("type") == Some(Str("array")) ==> !v.Array?
    requires node.Get("type") == Some(Str("object")) ==> !v.Object?
    ensures Passes(out, v) <==> Accepts(node, v) && Covered(node, v)
  {
    hide IsWhole, MeansRequired, MeansEnum, CodedRequired;
    if node.Get("type").None? && (v.Array? || v.Object?) {
      assert EnumFits(node.Get("enum").value.items);
      assert !CodedEnum(out.Get("enum"), v);
    }
  }

  lemma ArrayCase(node: Value, out: Value, v: Value, items: Value)
    requires v.Array? && node.Object? && node.Get("type") == out.Get("type") == Some(Str("array"))
    requires node.Get("items") == Some(items) && out.Get("items").Some? && out.Get("items").value.Object?
    requires CodedEnum(out.Get("enum"), v) <==> MeansEnum(node.Get("enum"), v)
    requires forall i :: 0 <= i < |v.items| ==>
               (Passes(out.Get("items").value, v.items[i]) <==>
                Accepts(items, v.items[i]) && Covered(items, v.items[i]))
    ensures Passes(out, v) <==> Accepts(node, v) && Covered(node, v)
  {
    hide CodedEnum, MeansEnum;
  }

  /** Beside the declared keys a translated node lets nothing be said: the keyword is absent, or closes the object. */
  lemma ScreenedNode(node: Value, depth: nat, size: Size)
    requires Translate(node, depth, size).Some?
    ensures node.Get("additionalProperties").None? || node.Get("additionalProperties") == Some(Bool(false))
  {
  }

  lemma ObjectCase(node: Value, out: Value, v: Value, declared: Value)
    requires v.Object? && declared.Object? && node.Get("type") == out.Get("type") == Some(Str("object"))
    requires node.Get("properties") == Some(declared) && out.Get("properties").Some?
             && out.Get("properties").value.Object?
    requires out.Get("properties").value.fields.Keys == declared.fields.Keys && "__proto__" !in v.fields
    requires CodedEnum(out.Get("enum"), v) <==> MeansEnum(node.Get("enum"), v)
    requires CodedRequired(out.Get("required"), v) <==> MeansRequired(node.Get("required"), v)
    requires forall k :: k in v.fields && k in declared.fields ==>
               var child := out.Get("properties").value.fields[k];
               child.Object?
                   && (Passes(child, v.fields[k]) <==>
                       Accepts(declared.fields[k], v.fields[k]) && Covered(declared.fields[k], v.fields[k]))
    ensures Passes(out, v) <==> Accepts(node, v) && Covered(node, v)
  {
    hide CodedEnum, MeansEnum, CodedRequired, MeansRequired;
    assert forall k :: k in v.fields ==> (Declares(node, k) <==> k in declared.fields);
    assert forall k :: k in declared.fields ==> RuleFor(node, k) == Some(declared.fields[k]);
  }

  lemma EnumKept(node: Value, v: Value)
    requires Good(node) && (node.Get("enum").Some? ==> node.Get("enum").value.Array?)
    ensures CodedEnum(node.Get("enum"), v) <==> MeansEnum(node.Get("enum"), v)
  {
    hide EnumFits;
    if node.Get("enum").Some? {
      EnumHolds(node.Get("enum").value.items, v);
    }
  }

  lemma RequiredKept(node: Value, v: Value)
    requires Good(node) && v.Object?
    ensures CodedRequired(node.Get("required"), v) <==> MeansRequired(node.Get("required"), v)
  {
    if node.Get("required").Some? && node.Get("required").value.Array? {
      RequiredAgreement(node.Get("required").value.items);
      assert v == Object(v.fields);
    }
  }

  predicate CoveredArgs(input: Value, args: map<string, Value>) {
    forall k :: k in args ==> Declares(input, k) && Covered(input.Get("properties").value.fields[k], args[k])
  }

  /** Arguments that use no inherited name but as declared, nor the prototype's inside. */
  ghost predicate PlainArgs(input: Value, args: map<string, Value>) {
    forall k <- args :: NoProto(args[k]) && (k in INHERITED ==> Declares(input, k))
  }

  /** Both conditions for a whole tool. */
  predicate GoodTool(input: Value) {
    && (input.Get("required").Some? && input.Get("required").value.Array? ==>
        NamesFit(input.Get("required").value.items))
    && (input.Get("properties").Some? ==> GoodAll(input.Get("properties").value))
  }

  /** The same for a whole tool: arguments pass exactly when its schema accepts them and declares all their keys. */
  lemma ArgsKeepMeaning(input: Value, size: Size, args: map<string, Value>)
    requires ToArgsSchema(input, size).Some? && GoodTool(input) && PlainArgs(input, args)
    ensures ArgsPass(ToArgsSchema(input, size).value, args) <==> AcceptsArgs(input, args) && CoveredArgs(input, args)
  {
    hide Translate, TranslateAll, Passes, Accepts, Covered, NamesFit, CodedRequired, MeansRequired;
    var declared := input.Get("properties").value;
    var out := ToArgsSchema(input, size).value;
    RootRequiredKept(input, size, args);
    forall k | k in args && k in declared.fields
      ensures out.Get("properties").value.Get(k).Some?
      ensures Passes(out.Get("properties").value.Get(k).value, args[k]) <==>
              Accepts(declared.fields[k], args[k]) && Covered(declared.fields[k], args[k])
    {
      TranslatedChild(declared, 0, size, k);
      TranslationKeepsMeaning(declared.fields[k], 0, size, args[k]);
    }
    assert forall k :: k in declared.fields ==> RuleFor(input, k) == Some(declared.fields[k]);
    assert forall k :: Declares(input, k) <==> k in declared.fields;
    assert forall k :: out.Get("properties").value.Get(k).Some? <==> k in declared.fields;
  }

  lemma RootRequiredKept(input: Value, size: Size, args: map<string, Value>)
    requires ToArgsSchema(input, size).Some? && GoodTool(input)
    ensures CodedRequired(ToArgsSchema(input, size).value.Get("required"), Object(args)) <==>
            MeansRequired(input.Get("required"), Object(args))
  {
    hide TranslateAll, NamesFit;
    if input.Get("required").Some? {
      RequiredAgreement(input.Get("required").value.items);
    }
  }

  // ---------- Where it does not hold ----------

  /** A required argument named like an inherited member may be left out. */
  lemma InheritedRequiredPasses(size: Size)
    ensures var input := Object(map["properties" := Object(map["toString" := Object(map["type" := Str("string")])]),
                                    "required" := Array([Str("toString")])]);
            ToArgsSchema(input, size).Some? && ArgsPass(ToArgsSchema(input, size).value, map[])
                && !AcceptsArgs(input, map[])
  {
    StringTranslates(size);
    hide Translate;
    assert Str("toString") in [Str("toString")];
  }

  lemma StringTranslates(size: Size)
    ensures Translate(Object(map["type" := Str("string")]), 0, size).Some?
  {
    assert TypePart(Object(map["type" := Str("string")]), 0, size).Some?;
  }

  /** A record without keywords, which passes every value. */
  const ANYTHING := Object(map[])

  function Declaring(names: set<string>): Value {
    Object(map["type" := Str("object"), "properties" := Object(map k | k in names :: ANYTHING)])
  }

  lemma DeclaringFields(names: set<string>)
    ensures var node := Declaring(names);
            && node.Get("type") == Some(Str("object")) && node.Get("enum").None? && node.Get("required").None?
            && node.Get("properties") == Some(Object(map k | k in names :: ANYTHING))
    ensures ANYTHING.Object? && forall v :: Passes(ANYTHING, v)
  {
  }

  lemma DeclaringPasses(names: set<string>, fields: map<string, Value>)
    ensures Passes(Declaring(names), Object(fields)) <==> forall k :: k in fields ==> k in names || k == "__proto__"
  {
    hide Declaring, ANYTHING;
    DeclaringFields(names);
    assert forall k :: k in fields ==> Passes(ANYTHING, Object(fields).fields[k]);
  }

  /** Inside an object the check rejects exactly the undeclared keys if and only if the prototype's name is declared. */
  lemma UndeclaredAgreement(names: set<string>)
    ensures (forall fields :: Passes(Declaring(names), Object(fields)) <==> fields.Keys <= names) <==>
            "__proto__" in names
  {
    hide Passes, Declaring;
    forall fields: map<string, Value>
      ensures Passes(Declaring(names), Object(fields)) <==> forall k :: k in fields ==> k in names || k == "__proto__"
    {
      DeclaringPasses(names, fields);
    }
    if "__proto__" !in names {
      var fields := map["__proto__" := Null];
      assert "__proto__" in fields.Keys;
      assert Passes(Declaring(names), Object(fields));
      assert !(fields.Keys <= names);
    }
  }

  /** Among the arguments themselves that takes every inherited name to be declared. */
  lemma UndeclaredArgsAgreement(names: set<string>)
    ensures (forall args :: ArgsPass(Declaring(names), args) <==> args.Keys <= names) <==> INHERITED <= names
  {
    hide INHERITED;
    forall args: map<string, Value>
      ensures ArgsPass(Declaring(names), args) <==> forall k :: k in args ==> k in names || k in INHERITED
    {
      assert forall k :: k in args ==> Passes(ANYTHING, args[k]);
    }
    if !(INHERITED <= names) {
      var k :| k in INHERITED && k !in names;
      var args := map[k := Null];
      assert k in args.Keys;
      assert ArgsPass(Declaring(names), args);
      assert !(args.Keys <= names);
    }
  }

  /** So an undeclared argument with an inherited name passes even where the schema is closed. */
  lemma InheritedExtraPasses(size: Size, v: Value)
    ensures var input := Object(map["properties" := Object(map[]), "additionalProperties" := Bool(false)]);
            var args := map["constructor" := v];
            ToArgsSchema(input, size).Some? && ArgsPass(ToArgsSchema(input, size).value, args)
                && !AcceptsArgs(input, args)
  {
    assert "constructor" in map["constructor" := v];
  }

  const CLOSED_EMPTY :=
    Object(map["type" := Str("object"), "properties" := Object(map[]), "additionalProperties" := Bool(false)])

  lemma ClosedFields()
    ensures CLOSED_EMPTY.Object? && CLOSED_EMPTY.Get("type") == Some(Str("object"))
    ensures CLOSED_EMPTY.Get("properties") == Some(Object(map[])) && CLOSED_EMPTY.Get("enum").None?
    ensures CLOSED_EMPTY.Get("required").None? && CLOSED_EMPTY.Get("additionalProperties") == Some(Bool(false))
  {
  }

  /** And inside a closed object the prototype's own name does. */
  lemma ProtoExtraPasses(v: Value)
    ensures Passes(CLOSED_EMPTY, Object(map["__proto__" := v])) && !Accepts(CLOSED_EMPTY, Object(map["__proto__" := v]))
  {
    hide CLOSED_EMPTY;
    ClosedFields();
    var value := Object(map["__proto__" := v]);
    assert "__proto__" in value.fields && RuleFor(CLOSED_EMPTY, "__proto__") == Some(Bool(false));
  }
}
