/** Which foreign schemas are translated: every node within the subset, none too deep, and nothing lost on the way. */
module McpSubset {
  import opened Wrappers
  import opened Json
  import opened McpSchema
  import opened McpMeaning

  /** From a schema to one nested in it. */
  datatype Step = Items | Property(name: string)

  function Child(node: Value, step: Step): Option<Value> {
    match step
    case Items => if node.Get("type") == Some(Str("array")) then node.Get("items") else None
    case Property(name) =>
      if node.Get("type") == Some(Str("object")) && node.Get("properties").Some?
      then node.Get("properties").value.Get(name) else None
  }

  /** The schema at the end of the path, if the path leads anywhere. */
  function At(node: Value, path: seq<Step>): Option<Value> {
    if path == [] then Some(node)
    else
      match Child(node, path[0])
      case None => None
      case Some(child) => At(child, path[1..])
  }

  /** An object that declares its properties, fifty at most, and requires only declared ones. */
  predicate Declares(node: Value) {
    && node.Get("properties").Some? && node.Get("properties").value.Object?
    && |node.Get("properties").value.fields| <= 50
    && (node.Get("required").Some? ==>
          && node.Get("required").value.Array?
          && forall item <- node.Get("required").value.items ::
               item.Str? && item.s in node.Get("properties").value.fields)
  }

  /** The keywords the type asks for. */
  predicate TypeFine(node: Value) {
    && (node.Get("type").None? ==> node.Get("enum").Some?)
    && (node.Get("type").Some? ==>
          node.Get("type").value in
          {Str("string"), Str("number"), Str("integer"), Str("boolean"), Str("array"), Str("object")})
    && (node.Get("type") == Some(Str("array")) ==> node.Get("items").Some?)
    && (node.Get("type") == Some(Str("object")) ==> Declares(node))
  }

  /** One node by itself is in the subset. */
  predicate Fine(node: Value, size: Size) {
    && node.Object?
    && (forall k <- node.fields :: k !in BANNED)
    && (node.Get("additionalProperties").Some? ==> node.Get("additionalProperties") == Some(Bool(false)))
    && TypeFine(node)
    && (node.Get("enum").Some? ==> node.Get("enum").value.Array? && node.Get("enum").value.items != [])
    && (node.Get("description").Some? ==> node.Get("description").value.Str?)
    && (node.Get("default").Some? ==> size(node.Get("default").value) <= 10000)
  }

  /** Wherever a path leads, the node there is in the subset, and no path is longer than that. */
  ghost predicate FineThroughout(node: Value, levels: int, size: Size) {
    forall path :: At(node, path).Some? ==> |path| <= levels && Fine(At(node, path).value, size)
  }

  ghost predicate ChildrenTranslate(node: Value, depth: nat, size: Size) {
    forall step :: Child(node, step).Some? ==> Translate(Child(node, step).value, depth + 1, size).Some?
  }

  lemma AllDeclared(declared: Value, depth: nat, size: Size)
    ensures TranslateAll(declared, depth, size).Some? <==>
            && declared.Object? && |declared.fields| <= 50
            && forall k <- declared.fields :: Translate(declared.fields[k], depth, size).Some?
  {
    hide Translate;
  }

  lemma ObjectPart(node: Value, depth: nat, size: Size)
    requires node.Object? && depth <= MAX_SCHEMA_DEPTH && node.Get("type") == Some(Str("object"))
    ensures TypePart(node, depth, size).Some? <==> Declares(node) && ChildrenTranslate(node, depth, size)
  {
    hide Translate, TranslateAll;
    if node.Get("properties").Some? {
      var declared := node.Get("properties").value;
      AllDeclared(declared, depth + 1, size);
      if declared.Object? {
        assert forall k <- declared.fields :: Child(node, Property(k)) == Some(declared.fields[k]);
        assert forall step :: Child(node, step).Some? ==>
                 && step.Property? && step.name in declared.fields
                 && Child(node, step).value == declared.fields[step.name];
      }
    }
  }

  lemma OtherPart(node: Value, depth: nat, size: Size)
    requires node.Object? && depth <= MAX_SCHEMA_DEPTH && node.Get("type") != Some(Str("object"))
    ensures TypePart(node, depth, size).Some? <==> TypeFine(node) && ChildrenTranslate(node, depth, size)
  {
    hide Translate, TranslateAll, Declares;
    if node.Get("type") == Some(Str("array")) && node.Get("items").Some? {
      assert Child(node, Items) == node.Get("items");
      assert forall step :: Child(node, step).Some? ==> step == Items;
    } else {
      assert forall step :: Child(node, step).None?;
    }
  }

  /** What a translated node asks of itself and of its children. */
  lemma OneNode(node: Value, depth: nat, size: Size)
    ensures Translate(node, depth, size).Some? <==>
            depth <= 5 && Fine(node, size) && ChildrenTranslate(node, depth, size)
  {
    if node.Object? && depth <= MAX_SCHEMA_DEPTH {
      if node.Get("type") == Some(Str("object")) {
        ObjectPart(node, depth, size);
      } else {
        OtherPart(node, depth, size);
      }
      hide TypePart, ChildrenTranslate, Declares;
    }
  }

  /** A node translates if and only if every node inside it is in the subset and none is nested too deep. */
  lemma {:induction false} TranslatesExactly(node: Value, depth: nat, size: Size)
    ensures Translate(node, depth, size).Some? <==> FineThroughout(node, 5 - depth, size)
    decreases MAX_SCHEMA_DEPTH + 1 - depth
  {
    hide Translate, Fine, Child;
    OneNode(node, depth, size);
    assert At(node, []) == Some(node);
    if depth <= 5 && Fine(node, size) {
      forall step | Child(node, step).Some?
        ensures Translate(Child(node, step).value, depth + 1, size).Some? <==>
                FineThroughout(Child(node, step).value, 4 - depth, size)
      {
        TranslatesExactly(Child(node, step).value, depth + 1, size);
      }
      ThroughChildren(node, 5 - depth, size);
    } else {
      var none: seq<Step> := [];
      assert At(node, none) == Some(node) && |none| == 0;
    }
  }

  lemma ThroughChildren(node: Value, levels: nat, size: Size)
    requires Fine(node, size)
    ensures FineThroughout(node, levels, size) <==>
            forall step :: Child(node, step).Some? ==> FineThroughout(Child(node, step).value, levels - 1, size)
  {
    hide Fine, Child;
    if FineThroughout(node, levels, size) {
      forall step, path | Child(node, step).Some? && At(Child(node, step).value, path).Some?
        ensures |path| <= levels - 1 && Fine(At(Child(node, step).value, path).value, size)
      {
        var whole := [step] + path;
        assert whole[1..] == path && At(node, whole) == At(Child(node, step).value, path);
      }
    }
    if forall step :: Child(node, step).Some? ==> FineThroughout(Child(node, step).value, levels - 1, size) {
      forall path | At(node, path).Some?
        ensures |path| <= levels && Fine(At(node, path).value, size)
      {
        if path != [] {
          assert At(Child(node, path[0]).value, path[1..]) == At(node, path);
        }
      }
    }
  }

  /** A tool is offered if and only if its input schema is an object of fifty properties at most, each in the subset. */
  lemma OfferedExactly(input: Value, size: Size)
    ensures ToArgsSchema(input, size).Some? <==>
            && input.Object? && (input.Get("type").Some? ==> input.Get("type") == Some(Str("object")))
            && Declares(input)
            && forall k <- input.Get("properties").value.fields ::
                 FineThroughout(input.Get("properties").value.fields[k], 5, size)
  {
    hide Translate, TranslateAll, FineThroughout;
    if input.Get("properties").Some? {
      var declared := input.Get("properties").value;
      AllDeclared(declared, 0, size);
      if declared.Object? {
        forall k | k in declared.fields
          ensures Translate(declared.fields[k], 0, size).Some? <==> FineThroughout(declared.fields[k], 5, size)
        {
          TranslatesExactly(declared.fields[k], 0, size);
        }
      }
    }
  }

  // ---------- What arrives ----------

  /** The translated node says what the source node says, with at most 500 characters of its description. */
  ghost predicate SaysTheSame(node: Value, out: Value) {
    && out.Get("type") == node.Get("type") && out.Get("enum") == node.Get("enum")
    && out.Get("default") == node.Get("default")
    && out.Get("description").Some? == node.Get("description").Some?
    && (node.Get("description").Some? ==>
          && node.Get("description").value.Str? && out.Get("description").value.Str?
          && var full, kept := node.Get("description").value.s, out.Get("description").value.s;
             kept <= full && |kept| == if |full| < 500 then |full| else 500)
    && (node.Get("type") == Some(Str("object")) ==>
          out.Get("required") == node.Get("required") && out.Get("additionalProperties") == Some(Bool(false)))
  }

  /** Every path through the source leads through its translation, to the same words. */
  lemma {:induction false} NothingLost(node: Value, depth: nat, size: Size, path: seq<Step>)
    requires Translate(node, depth, size).Some?
    ensures var out := Translate(node, depth, size).value;
            && At(out, path).Some? == At(node, path).Some?
            && (At(node, path).Some? ==> SaysTheSame(At(node, path).value, At(out, path).value))
    decreases path
  {
    if path == [] {
      OneSaysTheSame(node, depth, size);
    } else {
      hide SaysTheSame, Translate, Child;
      SameChildren(node, depth, size, path[0]);
      if Child(node, path[0]).Some? {
        NothingLost(Child(node, path[0]).value, depth + 1, size, path[1..]);
      }
    }
  }

  lemma SameChildren(node: Value, depth: nat, size: Size, step: Step)
    requires Translate(node, depth, size).Some?
    ensures var out := Translate(node, depth, size).value;
            if Child(node, step).Some?
            then Translate(Child(node, step).value, depth + 1, size) == Child(out, step) && Child(out, step).Some?
            else Child(out, step).None?
  {
    hide Translate, TranslateAll;
    TranslatedFields(node, depth, size);
    OneNode(node, depth, size);
    if node.Get("type") == Some(Str("object")) && step.Property? {
      var declared := node.Get("properties").value;
      AllKeys(declared, depth + 1, size);
      if step.name in declared.fields {
        TranslatedChild(declared, depth + 1, size, step.name);
      }
    }
  }

  lemma AllKeys(declared: Value, depth: nat, size: Size)
    requires TranslateAll(declared, depth, size).Some?
    ensures declared.Object? && TranslateAll(declared, depth, size).value.Keys == declared.fields.Keys
  {
    hide Translate;
  }

  lemma OneSaysTheSame(node: Value, depth: nat, size: Size)
    requires Translate(node, depth, size).Some?
    ensures SaysTheSame(node, Translate(node, depth, size).value)
  {
    hide TypePart, TranslateAll, Screened;
    TypeFields(node, depth, size);
    PartWords(node, depth, size);
  }

  lemma PartWords(node: Value, depth: nat, size: Size)
    requires node.Object? && depth <= MAX_SCHEMA_DEPTH && TypePart(node, depth, size).Some?
    ensures var part := Object(TypePart(node, depth, size).value);
            && part.Get("description").None? && part.Get("default").None?
            && (node.Get("type") == Some(Str("object")) ==> part.Get("additionalProperties") == Some(Bool(false)))
  {
    hide TranslateAll, Translate, RequiredOk;
  }
}
