/** Translation closes every object: exactly where that narrows a schema. */
module McpClosed {
  import opened Wrappers
  import opened Json
  import opened McpSchema
  import opened McpMeaning

  // ---------- It never widens ----------

  /** Whatever the validator lets through, the source schema accepts. */
  lemma NeverWidens(node: Value, depth: nat, size: Size, v: Value)
    requires Translate(node, depth, size).Some? && Good(node) && NoProto(v)
    requires Passes(Translate(node, depth, size).value, v)
    ensures Accepts(node, v)
  {
    TranslationKeepsMeaning(node, depth, size, v);
  }

  // ---------- Closed schemas and schemas that can be met ----------

  /** Every object node says that it is closed. */
  predicate Closed(schema: Value)
    decreases schema
  {
    && (schema.Get("type") == Some(Str("array")) && "items" in schema.fields ==> Closed(schema.fields["items"]))
    && (schema.Get("type") == Some(Str("object")) ==>
          && schema.Get("additionalProperties") == Some(Bool(false))
          && ("properties" in schema.fields ==> ClosedAll(schema.fields["properties"])))
  }

  predicate ClosedAll(declared: Value)
    decreases declared
  {
    declared.Object? ==> forall k :: k in declared.fields ==> Closed(declared.fields[k])
  }

  /** No enum bars what the type asks for, so that some value meets the node. */
  predicate Live(schema: Value)
    decreases schema
  {
    && schema.Object?
    && (schema.Get("enum").Some? ==>
          && schema.Get("enum").value.Array? && schema.Get("type") !in {Some(Str("array")), Some(Str("object"))}
          && exists o <- schema.Get("enum").value.items :: MeansType(schema.Get("type"), o))
    && (schema.Get("type") == Some(Str("array")) && "items" in schema.fields ==> Live(schema.fields["items"]))
    && (schema.Get("type") == Some(Str("object")) && "properties" in schema.fields ==>
        LiveAll(schema.fields["properties"]))
  }

  predicate LiveAll(declared: Value)
    decreases declared
  {
    declared.Object? ==> forall k :: k in declared.fields ==> Live(declared.fields[k])
  }

  // ---------- A value for every live node ----------

  /** The node is translated, and all conditions hold at it and below. */
  ghost predicate Fine(node: Value, depth: nat, size: Size) {
    Translate(node, depth, size).Some? && Good(node) && Live(node)
  }

  /** A value a node accepts, nothing undeclared in it. */
  ghost predicate Meets(node: Value, v: Value) {
    Accepts(node, v) && Covered(node, v) && NoProto(v)
  }

  /** A value it accepts although something in it is undeclared. */
  ghost predicate Exceeds(node: Value, v: Value) {
    Accepts(node, v) && !Covered(node, v) && NoProto(v)
  }

  lemma GoodBelow(node: Value)
    requires Good(node) && node.Object?
    ensures node.Get("items").Some? ==> Good(node.Get("items").value)
    ensures node.Get("properties").Some? && node.Get("properties").value.Object? ==>
              && "__proto__" !in node.Get("properties").value.fields
              && forall k <- node.Get("properties").value.fields :: Good(node.Get("properties").value.fields[k])
  {
    hide EnumFits, NamesFit;
  }

  lemma LiveBelow(node: Value)
    requires Live(node)
    ensures node.Get("type") == Some(Str("array")) && node.Get("items").Some? ==> Live(node.Get("items").value)
    ensures node.Get("type") == Some(Str("object")) && node.Get("properties").Some?
            && node.Get("properties").value.Object? ==>
              forall k <- node.Get("properties").value.fields :: Live(node.Get("properties").value.fields[k])
  {
    hide MeansType;
  }

  lemma FineChild(node: Value, depth: nat, size: Size)
    requires Fine(node, depth, size)
    ensures node.Get("type") == Some(Str("array")) ==>
              node.Get("items").Some? && Fine(node.Get("items").value, depth + 1, size)
    ensures node.Get("type") == Some(Str("object")) ==>
              && node.Get("properties").Some? && node.Get("properties").value.Object?
              && "__proto__" !in node.Get("properties").value.fields
              && forall k <- node.Get("properties").value.fields ::
                    Fine(node.Get("properties").value.fields[k], depth + 1, size)
  {
    hide Translate, TranslateAll, Good, Live;
    TranslatedFields(node, depth, size);
    GoodBelow(node);
    LiveBelow(node);
    if node.Get("type") == Some(Str("object")) {
      var declared := node.Get("properties").value;
      forall k | k in declared.fields
        ensures Fine(declared.fields[k], depth + 1, size)
      {
        TranslatedChild(declared, depth + 1, size, k);
      }
    } else if node.Get("type") == Some(Str("array")) {
      ItemsTranslate(node, depth, size);
    }
  }

  lemma ItemsTranslate(node: Value, depth: nat, size: Size)
    requires Translate(node, depth, size).Some? && node.Get("type") == Some(Str("array"))
    ensures node.Get("items").Some? && Translate(node.Get("items").value, depth + 1, size).Some?
  {
    hide TranslateAll, Screened;
  }

  lemma ScalarMet(node: Value, depth: nat, size: Size) returns (v: Value)
    requires Fine(node, depth, size) && node.Get("type") !in {Some(Str("array")), Some(Str("object"))}
    ensures Meets(node, v)
  {
    KnownType(node, depth, size);
    TranslatedFields(node, depth, size);
    hide Translate, NamesFit, IsWhole;
    if node.Get("enum").Some? {
      v :| v in node.Get("enum").value.items && MeansType(node.Get("type"), v);
      SameJson(v);
      assert EnumFits(node.Get("enum").value.items);
    } else {
      ZeroIsWhole();
      var t := node.Get("type").value;
      v := if t == Str("string") then Str("") else if t == Str("boolean") then Bool(true) else Number(0.0);
    }
  }

  lemma ZeroIsWhole()
    ensures IsWhole(0.0)
  {
  }

  /** Values for all declared keys make an object the node accepts; one more key must be allowed beside them. */
  lemma ObjectMet(node: Value, depth: nat, size: Size, fields: map<string, Value>)
    requires Fine(node, depth, size) && node.Get("type") == Some(Str("object"))
    requires node.Get("properties").Some? && node.Get("properties").value.Object?
    requires var declared := node.Get("properties").value;
             && declared.fields.Keys <= fields.Keys && "__proto__" !in fields
             && (fields.Keys == declared.fields.Keys || node.Get("additionalProperties").None?)
             && forall k <- fields ::
                   NoProto(fields[k]) && (k in declared.fields ==> Accepts(declared.fields[k], fields[k]))
    ensures Accepts(node, Object(fields)) && NoProto(Object(fields))
    ensures Covered(node, Object(fields)) <==>
            var declared := node.Get("properties").value.fields;
            fields.Keys == declared.Keys && forall k <- fields :: Covered(declared[k], fields[k])
  {
    var v, declared := Object(fields), node.Get("properties").value;
    RequiredDeclared(node, depth, size);
    hide Translate, NamesFit, EnumFits;
    assert forall k :: k in declared.fields ==> RuleFor(node, k) == Some(declared.fields[k]);
    assert forall k :: k !in declared.fields ==> RuleFor(node, k) == node.Get("additionalProperties");
    assert forall k :: k in fields ==> v.fields[k] == fields[k];
    assert forall k :: Declares(node, k) <==> k in declared.fields;
  }

  lemma RequiredDeclared(node: Value, depth: nat, size: Size)
    requires Translate(node, depth, size).Some? && node.Get("type") == Some(Str("object"))
    ensures node.Get("properties").Some? && node.Get("properties").value.Object?
    ensures node.Get("required").Some? ==>
              && node.Get("required").value.Array?
              && forall item <- node.Get("required").value.items ::
                    item.Str? && item.s in node.Get("properties").value.fields
  {
    hide TranslateAll, Screened;
  }

  ghost function AnyMeeting(node: Value): Value {
    if v: Value :| Meets(node, v) then v else Null
  }

  /** Every such node can be met. */
  lemma {:induction false} SomeMeets(node: Value, depth: nat, size: Size)
    requires Fine(node, depth, size)
    ensures Meets(node, AnyMeeting(node))
    decreases node
  {
    hide Translate, Good, Live, Accepts, Covered, NoProto;
    FineChild(node, depth, size);
    if node.Get("type") == Some(Str("array")) {
      EmptyMeets(node, depth, size);
    } else if node.Get("type") == Some(Str("object")) {
      var declared := node.Get("properties").value;
      var fields := map k | k in declared.fields :: AnyMeeting(declared.fields[k]);
      forall k | k in declared.fields
        ensures Meets(declared.fields[k], fields[k])
      {
        SomeMeets(declared.fields[k], depth + 1, size);
      }
      ObjectMet(node, depth, size, fields);
      assert Meets(node, Object(fields));
    } else {
      var v := ScalarMet(node, depth, size);
    }
  }

  lemma EmptyMeets(node: Value, depth: nat, size: Size)
    requires Fine(node, depth, size) && node.Get("type") == Some(Str("array"))
    ensures Meets(node, Array([]))
  {
    hide Translate;
  }

  // ---------- A value for every node that is not closed ----------

  /** A name outside any given set. */
  lemma {:induction false} FreshName(names: set<string>) returns (s: string)
    ensures s !in names && forall t <- names :: |t| < |s|
    decreases names
  {
    if names == {} {
      s := "a";
    } else {
      var x :| x in names;
      var r := FreshName(names - {x});
      s := if |r| > |x| then r else x + "a";
      assert forall t <- names :: t == x || t in names - {x};
    }
  }

  lemma OpenExceeds(node: Value, depth: nat, size: Size) returns (v: Value)
    requires Fine(node, depth, size) && node.Get("type") == Some(Str("object"))
             && node.Get("additionalProperties").None?
    ensures Exceeds(node, v)
  {
    hide Translate, Good, Live, Accepts, Covered, NoProto, INHERITED;
    FineChild(node, depth, size);
    var declared := node.Get("properties").value;
    var extra := FreshName(declared.fields.Keys + {"__proto__"});
    var fields := (map k | k in declared.fields :: AnyMeeting(declared.fields[k]))[extra := Null];
    forall k | k in declared.fields
      ensures Meets(declared.fields[k], fields[k])
    {
      SomeMeets(declared.fields[k], depth + 1, size);
    }
    NullIsPlain();
    assert extra in fields.Keys && extra !in declared.fields.Keys;
    ObjectMet(node, depth, size, fields);
    v := Object(fields);
  }

  lemma NullIsPlain()
    ensures NoProto(Null)
  {
  }

  /** Every such node that is not closed throughout accepts something the validator refuses. */
  lemma {:induction false} SomeExceeds(node: Value, depth: nat, size: Size) returns (v: Value)
    requires Fine(node, depth, size) && !Closed(node)
    ensures Exceeds(node, v)
    decreases node
  {
    hide Translate, Good, Live, Accepts, Covered, NoProto;
    FineChild(node, depth, size);
    if node.Get("type") == Some(Str("array")) {
      var item := SomeExceeds(node.Get("items").value, depth + 1, size);
      v := Array([item]);
      OneItem(node, depth, size, item);
    } else {
      ScreenedNode(node, depth, size);
      if node.Get("additionalProperties").None? {
        v := OpenExceeds(node, depth, size);
      } else {
        var declared := node.Get("properties").value;
        var x :| x in declared.fields && !Closed(declared.fields[x]);
        var inner := SomeExceeds(declared.fields[x], depth + 1, size);
        var fields := map k | k in declared.fields :: if k == x then inner else AnyMeeting(declared.fields[k]);
        forall k | k in declared.fields && k != x
          ensures Meets(declared.fields[k], fields[k])
        {
          SomeMeets(declared.fields[k], depth + 1, size);
        }
        assert fields[x] == inner;
        ObjectMet(node, depth, size, fields);
        v := Object(fields);
      }
    }
  }

  lemma OneItem(node: Value, depth: nat, size: Size, item: Value)
    requires Fine(node, depth, size) && node.Get("type") == Some(Str("array")) && node.Get("items").Some?
    requires Exceeds(node.Get("items").value, item)
    ensures Exceeds(node, Array([item]))
  {
    hide Translate;
    var v := Array([item]);
    assert v.items[0] == item;
  }

  lemma ClosedBelow(node: Value)
    requires Closed(node) && node.Object?
    ensures node.Get("type") == Some(Str("array")) && node.Get("items").Some? ==> Closed(node.Get("items").value)
    ensures node.Get("type") == Some(Str("object")) ==>
              && node.Get("additionalProperties") == Some(Bool(false))
              && (node.Get("properties").Some? && node.Get("properties").value.Object? ==>
                    forall k <- node.Get("properties").value.fields :: Closed(node.Get("properties").value.fields[k]))
  {
  }

  /** A node accepts structures only where its type asks for them. */
  lemma StructuresByType(node: Value, depth: nat, size: Size, v: Value)
    requires Translate(node, depth, size).Some? && Good(node) && Accepts(node, v)
    ensures v.Array? ==> node.Get("type") == Some(Str("array"))
    ensures v.Object? ==> node.Get("type") == Some(Str("object"))
  {
    KnownType(node, depth, size);
    TranslatedFields(node, depth, size);
    EnumOrType(node, depth, size);
    hide Translate, NamesFit, IsWhole, MeansRequired;
    if node.Get("type").None? {
      var o :| o in node.Get("enum").value.items && JsonEqual(o, v);
      assert EnumFits(node.Get("enum").value.items);
    }
  }

  lemma EnumOrType(node: Value, depth: nat, size: Size)
    requires Translate(node, depth, size).Some?
    ensures node.Get("type").Some? || node.Get("enum").Some?
  {
  }

  /** A closed schema accepts no undeclared key. */
  lemma {:induction false} ClosedCovers(node: Value, depth: nat, size: Size, v: Value)
    requires Translate(node, depth, size).Some? && Good(node) && Closed(node) && Accepts(node, v)
    ensures Covered(node, v)
    decreases v
  {
    hide Translate, TranslateAll, Good, Closed, MeansEnum, MeansRequired, MeansType;
    TranslatedFields(node, depth, size);
    StructuresByType(node, depth, size, v);
    GoodBelow(node);
    ClosedBelow(node);
    if v.Array? {
      ItemsTranslate(node, depth, size);
      var items := node.Get("items").value;
      forall i | 0 <= i < |v.items|
        ensures Covered(items, v.items[i])
      {
        ClosedCovers(items, depth + 1, size, v.items[i]);
      }
    } else if v.Object? {
      var declared := node.Get("properties").value;
      forall k | k in v.fields
        ensures k in declared.fields && Covered(declared.fields[k], v.fields[k])
      {
        assert RuleFor(node, k) == Some(if k in declared.fields then declared.fields[k] else Bool(false));
        TranslatedChild(declared, depth + 1, size, k);
        ClosedCovers(declared.fields[k], depth + 1, size, v.fields[k]);
      }
    }
  }

  /**
   * For a node some value meets: the validator on its translation accepts exactly what the source schema accepts if
   * and only if every object node of the schema is declared closed.
   */
  lemma MeaningCondition(node: Value, depth: nat, size: Size)
    requires Translate(node, depth, size).Some? && Good(node) && Live(node)
    ensures (forall v | NoProto(v) :: Passes(Translate(node, depth, size).value, v) <==> Accepts(node, v)) <==>
            Closed(node)
  {
    hide Translate, Good, Live, Accepts, Covered, NoProto, Closed, Passes;
    if Closed(node) {
      forall v | NoProto(v)
        ensures Passes(Translate(node, depth, size).value, v) <==> Accepts(node, v)
      {
        TranslationKeepsMeaning(node, depth, size, v);
        if Accepts(node, v) {
          ClosedCovers(node, depth, size, v);
        }
      }
    } else {
      var v := SomeExceeds(node, depth, size);
      TranslationKeepsMeaning(node, depth, size, v);
    }
  }

  const NO_PROPERTIES := Object(map["type" := Str("object"), "properties" := Object(map[])])

  /** Such as an object with no declared keys, which the standard leaves open to all. */
  lemma OpenObjectNarrowed(size: Size, k: string, x: Value)
    requires k != "__proto__"
    ensures Translate(NO_PROPERTIES, 0, size).Some? && Accepts(NO_PROPERTIES, Object(map[k := x]))
    ensures !Passes(Translate(NO_PROPERTIES, 0, size).value, Object(map[k := x]))
  {
    hide NO_PROPERTIES, Translate, TranslateAll;
    OpenFields();
    OpenTranslates(size);
    TranslatedFields(NO_PROPERTIES, 0, size);
    var v := Object(map[k := x]);
    assert k in v.fields && RuleFor(NO_PROPERTIES, k).None?;
  }

  lemma OpenFields()
    ensures NO_PROPERTIES.Object? && NO_PROPERTIES.Get("type") == Some(Str("object"))
    ensures NO_PROPERTIES.Get("properties") == Some(Object(map[])) && NO_PROPERTIES.Get("enum").None?
    ensures NO_PROPERTIES.Get("required").None? && NO_PROPERTIES.Get("additionalProperties").None?
    ensures NO_PROPERTIES.Get("description").None? && NO_PROPERTIES.Get("default").None? && Screened(NO_PROPERTIES)
  {
  }

  lemma OpenTranslates(size: Size)
    ensures Translate(NO_PROPERTIES, 0, size).Some?
    ensures TranslateAll(Object(map[]), 1, size) == Some(map[])
  {
    hide NO_PROPERTIES, Screened;
    OpenFields();
    assert TypePart(NO_PROPERTIES, 0, size).Some?;
  }

  // ---------- The arguments of a tool ----------

  /** Nothing meets the rule for undeclared arguments; `false` is such a rule, no rule is not. */
  ghost predicate Refuses(rule: Option<Value>) {
    rule.Some? && forall v | NoProto(v) :: !Accepts(rule.value, v)
  }

  lemma BooleanRules(b: bool)
    ensures Refuses(Some(Bool(b))) <==> !b
  {
    NullIsPlain();
    assert Accepts(Bool(b), Null) == b;
  }

  /** The schema of a tool all of whose arguments can be met. */
  ghost predicate FineTool(input: Value, size: Size) {
    ToArgsSchema(input, size).Some? && GoodTool(input) && LiveAll(input.Get("properties").value)
  }

  lemma ToolFields(input: Value, size: Size)
    requires FineTool(input, size)
    ensures input.Get("properties").Some? && input.Get("properties").value.Object?
    ensures "__proto__" !in input.Get("properties").value.fields
    ensures forall k <- input.Get("properties").value.fields :: Fine(input.Get("properties").value.fields[k], 0, size)
    ensures input.Get("required").Some? ==>
              && input.Get("required").value.Array?
              && forall item <- input.Get("required").value.items ::
                    item.Str? && item.s in input.Get("properties").value.fields
  {
    hide Translate, Good, Live, TranslateAll, NamesFit;
    var declared := input.Get("properties").value;
    forall k | k in declared.fields
      ensures Fine(declared.fields[k], 0, size)
    {
      TranslatedChild(declared, 0, size, k);
    }
  }

  lemma ArgsMet(input: Value, size: Size, args: map<string, Value>)
    requires FineTool(input, size) && input.Get("properties").Some? && input.Get("properties").value.Object?
    requires var declared := input.Get("properties").value.fields;
             && declared.Keys <= args.Keys
             && (forall k <- args :: NoProto(args[k]) && (k in declared || k !in INHERITED))
             && forall k <- args :: var rule :=
                 if k in declared then Some(declared[k]) else input.Get("additionalProperties");
                                    rule.Some? ==> Accepts(rule.value, args[k])
    ensures AcceptsArgs(input, args) && PlainArgs(input, args)
    ensures CoveredArgs(input, args) <==>
            var declared := input.Get("properties").value.fields;
            args.Keys == declared.Keys && forall k <- args :: Covered(declared[k], args[k])
  {
    hide Accepts, Covered, NoProto, Translate, TranslateAll, INHERITED;
    var declared := input.Get("properties").value;
    ToolFields(input, size);
    assert forall k :: k in declared.fields ==> RuleFor(input, k) == Some(declared.fields[k]);
    assert forall k :: k !in declared.fields ==> RuleFor(input, k) == input.Get("additionalProperties");
    assert forall k :: Declares(input, k) <==> k in declared.fields;
  }

  /** A tool whose schema is not closed throughout has arguments that its schema accepts and the validator refuses. */
  lemma SomeArgsExceed(input: Value, size: Size) returns (args: map<string, Value>)
    requires FineTool(input, size)
             && !(Refuses(input.Get("additionalProperties")) && ClosedAll(input.Get("properties").value))
    ensures AcceptsArgs(input, args) && PlainArgs(input, args) && !CoveredArgs(input, args)
  {
    hide Accepts, Covered, NoProto, Translate, TranslateAll, INHERITED, Good, Live, Closed, FineTool;
    ToolFields(input, size);
    var declared := input.Get("properties").value;
    var rule := input.Get("additionalProperties");
    var met := map k | k in declared.fields :: AnyMeeting(declared.fields[k]);
    forall k | k in declared.fields
      ensures Meets(declared.fields[k], met[k])
    {
      SomeMeets(declared.fields[k], 0, size);
    }
    DeclaredAreFree(declared.fields.Keys);
    if !Refuses(rule) {
      NullIsPlain();
      var v :| NoProto(v) && (rule.Some? ==> Accepts(rule.value, v));
      var extra := FreshName(declared.fields.Keys + INHERITED);
      args := met[extra := v];
      assert extra in args.Keys && extra !in declared.fields.Keys;
    } else {
      var x :| x in declared.fields && !Closed(declared.fields[x]);
      var inner := SomeExceeds(declared.fields[x], 0, size);
      args := met[x := inner];
    }
    ArgsMet(input, size, args);
  }

  lemma DeclaredAreFree(names: set<string>)
    ensures names <= names + INHERITED
  {
  }

  /** A tool's arguments pass only if its schema accepts them. */
  lemma ArgsNeverWiden(input: Value, size: Size, args: map<string, Value>)
    requires ToArgsSchema(input, size).Some? && GoodTool(input) && PlainArgs(input, args)
    requires ArgsPass(ToArgsSchema(input, size).value, args)
    ensures AcceptsArgs(input, args)
  {
    ArgsKeepMeaning(input, size, args);
  }

  /** And they pass whenever it does exactly when the schema is closed at the root and at every object below. */
  lemma ArgsCondition(input: Value, size: Size)
    requires ToArgsSchema(input, size).Some? && GoodTool(input) && LiveAll(input.Get("properties").value)
    ensures (forall args | PlainArgs(input, args) :: ArgsPass(ToArgsSchema(input, size).value, args) <==>
             AcceptsArgs(input, args))
            <==> Refuses(input.Get("additionalProperties")) && ClosedAll(input.Get("properties").value)
  {
    assert FineTool(input, size);
    hide Translate, TranslateAll, Good, Live, Accepts, Covered, NoProto, Closed, ArgsPass, Passes, INHERITED, LiveAll,
         GoodTool;
    if Refuses(input.Get("additionalProperties")) && ClosedAll(input.Get("properties").value) {
      forall args | PlainArgs(input, args)
        ensures ArgsPass(ToArgsSchema(input, size).value, args) <==> AcceptsArgs(input, args)
      {
        ArgsKeepMeaning(input, size, args);
        if AcceptsArgs(input, args) {
          ClosedArgsCovered(input, size, args);
        }
      }
    } else {
      var args := SomeArgsExceed(input, size);
      ArgsKeepMeaning(input, size, args);
    }
  }

  lemma ClosedArgsCovered(input: Value, size: Size, args: map<string, Value>)
    requires FineTool(input, size) && PlainArgs(input, args) && AcceptsArgs(input, args)
    requires Refuses(input.Get("additionalProperties")) && ClosedAll(input.Get("properties").value)
    ensures CoveredArgs(input, args)
  {
    hide Translate, TranslateAll, Good, Live, Accepts, Covered, NoProto, Closed, INHERITED, FineTool, MeansRequired;
    ToolFields(input, size);
    var declared := input.Get("properties").value;
    forall k | k in args
      ensures k in declared.fields && Covered(declared.fields[k], args[k])
    {
      assert RuleFor(input, k) ==
             if k in declared.fields then Some(declared.fields[k]) else input.Get("additionalProperties");
      assert k in declared.fields;
      ClosedCovers(declared.fields[k], 0, size, args[k]);
    }
  }
}
