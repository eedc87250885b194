/** Which whole responses are answers, and to what: the fields that must be there, not how they are read. */
module LlmAnswers {
  import opened Wrappers
  import opened Text
  import opened Json
  import opened LlmProtocol
  import opened LlmStream
  import opened LlmText

  // ---------- Calls ----------

  /** The entry of `tool_calls` that stands for the call. */
  predicate Says(offer: Offer, decode: Decoder, item: Value, call: ToolCall) {
    && item.Get("id") == Some(Str(call.id)) && Nameable(Some(call.id)) && item.Get("type") == Some(Str("function"))
    && item.Get("function").Some? && Calls(offer, item.Get("function").value, call)
    && decode(call.rawArguments) == Some(Object(call.args))
  }

  /** Its `function` names a tool on offer by its alias and carries the raw arguments, if any. */
  predicate Calls(offer: Offer, fn: Value, call: ToolCall) {
    && fn.Get("name").Some? && fn.Get("name").value.Str? && Nameable(Some(fn.Get("name").value.s))
    && offer.mayCall && fn.Get("name").value.s in offer.aliases && offer.aliases[fn.Get("name").value.s] == call.name
    && (if fn.Get("arguments").Some? then fn.Get("arguments").value == Str(call.rawArguments)
        else call.rawArguments == "")
  }

  function TextOf(v: Option<Value>): Option<string> {
    if v.Some? && v.value.Str? then Some(v.value.s) else None
  }

  function FieldOf(item: Value, name: string): Option<Value> {
    if item.Get("function").Some? then item.Get("function").value.Get(name) else None
  }

  /** An entry by itself: each part may be missing, but what is there is right. */
  predicate Partial(offer: Offer, item: Value) {
    var id, kind, fn := item.Get("id"), item.Get("type"), item.Get("function");
    && (id.Some? ==> id.value.Str? && Nameable(Some(id.value.s)))
    && (kind.Some? ==> kind.value == Str("function"))
    && (fn.Some? ==> fn.value.Object?)
    && (FieldOf(item, "name").Some? ==>
          var name := FieldOf(item, "name").value;
          name.Str? && Nameable(Some(name.s)) && name.s in offer.aliases && offer.mayCall)
    && (FieldOf(item, "arguments").Some? ==> FieldOf(item, "arguments").value.Str?)
  }

  function PartsOf(item: Value): PendingCall {
    PendingCall(TextOf(item.Get("id")), item.Get("type").Some?, TextOf(FieldOf(item, "name")),
                if TextOf(FieldOf(item, "arguments")).Some? then TextOf(FieldOf(item, "arguments")).value else "")
  }

  lemma FunctionTaken(offer: Offer, call: PendingCall, item: Value)
    requires call.name.None? && call.rawArguments == ""
    ensures var fn, r := item.Get("function"), TakeFunction(offer, call, item.Get("function"));
            var name, arguments := FieldOf(item, "name"), FieldOf(item, "arguments");
            && (r.Ok? <==>
                  && (fn.Some? ==> fn.value.Object?)
                  && (name.Some? ==> name.value.Str? && Nameable(Some(name.value.s))
                                     && name.value.s in offer.aliases && offer.mayCall)
                  && (arguments.Some? ==> arguments.value.Str?))
            && (r.Ok? ==> r.value == call.(name := TextOf(name), rawArguments := PartsOf(item).rawArguments))
  {
    hide Trim, UnitLength;
  }

  lemma PartsTaken(offer: Offer, item: Value)
    ensures TakeDelta(offer, EMPTY_CALL, item) ==
            if Partial(offer, item) then Ok(PartsOf(item)) else Fail(ProtocolError)
  {
    var id, kind := item.Get("id"), item.Get("type");
    assert TakeId(EMPTY_CALL, id) ==
           if id.Some? ==> id.value.Str? && Nameable(Some(id.value.s)) then Ok(EMPTY_CALL.(id := TextOf(id)))
           else Fail(ProtocolError);
    var c1 := EMPTY_CALL.(id := TextOf(id));
    assert TakeType(c1, kind) ==
           if kind.Some? ==> kind.value == Str("function") then Ok(c1.(typed := kind.Some?)) else Fail(ProtocolError);
    FunctionTaken(offer, c1.(typed := kind.Some?), item);
    hide TakeId, TakeType, TakeFunction, Nameable;
  }

  /** Reading the one entry of a call and finishing it gives the call the entry stands for, and no other. */
  lemma SaysExactly(offer: Offer, decode: Decoder, item: Value, call: ToolCall)
    ensures Says(offer, decode, item, call) <==>
            && item.Object? && TakeDelta(offer, EMPTY_CALL, item).Ok?
            && FinishCall(offer, decode, TakeDelta(offer, EMPTY_CALL, item).value) == Ok(call)
  {
    hide TakeDelta, Trim, UnitLength;
    PartsTaken(offer, item);
  }

  ghost predicate AllFinished(offer: Offer, decode: Decoder, calls: map<nat, PendingCall>, tools: seq<ToolCall>) {
    forall i: nat :: i < |tools| ==> i in calls && FinishCall(offer, decode, calls[i]) == Ok(tools[i])
  }

  ghost predicate DifferentIds(tools: seq<ToolCall>) {
    forall i, j :: 0 <= i < j < |tools| ==> tools[i].id != tools[j].id
  }

  /** The finished calls are the entries finished one by one, with different ids. */
  lemma {:induction false} FinishExactly(offer: Offer, decode: Decoder, calls: map<nat, PendingCall>, n: nat,
                                         tools: seq<ToolCall>)
    ensures FinishCalls(offer, decode, calls, n) == Ok(tools) <==>
            |tools| == n && AllFinished(offer, decode, calls, tools) && DifferentIds(tools)
  {
    if n > 0 && |tools| == n {
      LastFinished(offer, decode, calls, n, tools);
      LastOfAll(offer, decode, calls, n, tools);
      hide FinishCall, FinishCalls, AllFinished, DifferentIds;
      FinishExactly(offer, decode, calls, n - 1, tools[..n - 1]);
    }
  }

  lemma LastOfAll(offer: Offer, decode: Decoder, calls: map<nat, PendingCall>, n: nat, tools: seq<ToolCall>)
    requires n > 0 && |tools| == n
    ensures AllFinished(offer, decode, calls, tools) <==>
            && AllFinished(offer, decode, calls, tools[..n - 1])
            && n - 1 in calls && FinishCall(offer, decode, calls[n - 1]) == Ok(tools[n - 1])
    ensures DifferentIds(tools) <==>
            && DifferentIds(tools[..n - 1])
            && forall k :: 0 <= k < n - 1 ==> tools[k].id != tools[n - 1].id
  {
    hide FinishCall;
    var before := tools[..n - 1];
    assert forall i :: 0 <= i < n - 1 ==> before[i] == tools[i];
    if AllFinished(offer, decode, calls, before) && n - 1 in calls
       && FinishCall(offer, decode, calls[n - 1]) == Ok(tools[n - 1]) {
      forall i: nat | i < n
        ensures i in calls && FinishCall(offer, decode, calls[i]) == Ok(tools[i])
      {
        if i < n - 1 {
          assert before[i] == tools[i];
        }
      }
    }
    if AllFinished(offer, decode, calls, tools) {
      forall i: nat | i < n - 1
        ensures i in calls && FinishCall(offer, decode, calls[i]) == Ok(before[i])
      {
        assert tools[i] == before[i];
      }
    }
  }

  lemma LastFinished(offer: Offer, decode: Decoder, calls: map<nat, PendingCall>, n: nat, tools: seq<ToolCall>)
    requires n > 0 && |tools| == n
    ensures FinishCalls(offer, decode, calls, n) == Ok(tools) <==>
            && FinishCalls(offer, decode, calls, n - 1) == Ok(tools[..n - 1])
            && n - 1 in calls && FinishCall(offer, decode, calls[n - 1]) == Ok(tools[n - 1])
            && forall k :: 0 <= k < n - 1 ==> tools[k].id != tools[n - 1].id
  {
    hide FinishCall;
    assert tools == tools[..n - 1] + [tools[n - 1]];
  }

  // ---------- The table of a whole message ----------

  function TableOf(items: seq<Value>, n: nat): map<nat, PendingCall>
    requires n <= |items|
  {
    map i: nat | i < n :: PartsOf(items[i])
  }

  predicate AllPartial(offer: Offer, items: seq<Value>) {
    forall k :: 0 <= k < |items| ==> items[k].Object? && Partial(offer, items[k])
  }

  lemma {:induction false} FewerBytes(small: map<nat, PendingCall>, large: map<nat, PendingCall>, n: nat)
    requires forall i: nat :: BytesAt(small, i) <= BytesAt(large, i)
    ensures TotalBytes(small, n) <= TotalBytes(large, n)
  {
    if n > 0 {
      FewerBytes(small, large, n - 1);
    }
  }

  lemma LimitsShrink(items: seq<Value>, m: nat, n: nat)
    requires m <= n <= |items| && WithinLimits(TableOf(items, n))
    ensures WithinLimits(TableOf(items, m))
  {
    hide PartsOf;
    var small, large := TableOf(items, m), TableOf(items, n);
    assert forall i: nat :: i in small ==> i in large && small[i] == large[i];
    FewerBytes(small, large, MAX_CALLS);
  }

  /** The positions are the indices, so every entry starts a call of its own. */
  lemma {:induction false} TableTaken(offer: Offer, items: seq<Value>, n: nat)
    requires n <= |items| && AllPartial(offer, items[..n]) && WithinLimits(TableOf(items, n))
    ensures AddCalls(offer, TableOf(items, n), items[n..], false, n) ==
            if AllPartial(offer, items[n..]) && WithinLimits(TableOf(items, |items|))
            then Ok(TableOf(items, |items|)) else Fail(ProtocolError)
    decreases |items| - n
  {
    hide TakeDelta, Partial, PartsOf, WithinLimits;
    if n < |items| {
      var item := items[n];
      PartsTaken(offer, item);
      OneTaken(offer, items, n);
      assert items[n..] == [item] + items[n + 1..];
      assert AllPartial(offer, items[n..]) <==>
             item.Object? && Partial(offer, item) && AllPartial(offer, items[n + 1..]);
      if WithinLimits(TableOf(items, |items|)) {
        LimitsShrink(items, n + 1, |items|);
      }
      if item.Object? && Partial(offer, item) && WithinLimits(TableOf(items, n + 1)) {
        assert items[..n + 1] == items[..n] + [item];
        TableTaken(offer, items, n + 1);
      }
    }
  }

  lemma OneTaken(offer: Offer, items: seq<Value>, n: nat)
    requires n < |items|
    ensures AddCall(offer, TableOf(items, n), items[n], Some(n)) ==
            if items[n].Object? && Partial(offer, items[n]) && WithinLimits(TableOf(items, n + 1))
            then Ok(TableOf(items, n + 1)) else Fail(ProtocolError)
  {
    PartsTaken(offer, items[n]);
    assert TableOf(items, n + 1) == TableOf(items, n)[n := PartsOf(items[n])];
    assert n >= MAX_CALLS ==> !WithinLimits(TableOf(items, n + 1)) by {
      assert n in TableOf(items, n + 1);
    }
    hide TakeDelta, Partial, PartsOf, WithinLimits, TableOf;
  }

  function RawBytes(tools: seq<ToolCall>): nat {
    if tools == [] then 0 else RawBytes(tools[..|tools| - 1]) + ByteLength(tools[|tools| - 1].rawArguments)
  }

  /** Eight calls at most, 64 KiB of arguments for each and 256 KiB for all. */
  predicate Moderate(tools: seq<ToolCall>) {
    && |tools| <= 8 && RawBytes(tools) <= 262_144
    && forall k :: 0 <= k < |tools| ==> ByteLength(tools[k].rawArguments) <= 65_536
  }

  lemma {:induction false} BytesOfAll(items: seq<Value>, tools: seq<ToolCall>, n: nat)
    requires |tools| == |items|
    requires forall k :: 0 <= k < |items| ==> PartsOf(items[k]).rawArguments == tools[k].rawArguments
    ensures TotalBytes(TableOf(items, |items|), n) == RawBytes(if n < |tools| then tools[..n] else tools)
  {
    hide PartsOf, ByteLength;
    if n > 0 {
      BytesOfAll(items, tools, n - 1);
      if n <= |tools| {
        assert tools[..n][..n - 1] == tools[..n - 1];
        assert tools[..|tools|] == tools;
      }
    }
  }

  lemma ModerateIsWithin(items: seq<Value>, tools: seq<ToolCall>)
    requires |tools| == |items|
    requires forall k :: 0 <= k < |items| ==> PartsOf(items[k]).rawArguments == tools[k].rawArguments
    ensures WithinLimits(TableOf(items, |items|)) <==> Moderate(tools)
  {
    hide PartsOf, ByteLength, RawBytes, TotalBytes;
    BytesOfAll(items, tools, MAX_CALLS);
    var table := TableOf(items, |items|);
    assert forall i: nat :: i in table <==> i < |items|;
    assert |items| > 0 ==> |items| - 1 in table;
    assert forall k: nat :: k < |tools| ==> BytesAt(table, k) == ByteLength(tools[k].rawArguments);
    assert |tools| <= 8 ==> TotalBytes(table, MAX_CALLS) == RawBytes(tools) by {
      assert |tools| == 8 ==> tools[..|tools|] == tools;
    }
  }

  // ---------- The message around them ----------

  /** The message of a response with one choice, whose index may only be zero. */
  function MessageOf(data: Value): Option<Value> {
    match data.Get("choices")
    case Some(Array(choices)) =>
      if |choices| == 1 && (choices[0].Get("index").Some? ==> choices[0].Get("index").value.Numeric() == Some(0.0))
      then choices[0].Get("message") else None
    case _ => None
  }

  function FinishOf(data: Value): Option<Value> {
    match data.Get("choices")
    case Some(Array(choices)) => if |choices| == 1 then choices[0].Get("finish_reason") else None
    case _ => None
  }

  /** A response of the assistant without an error, under its own name for the model or the one asked. */
  predicate Envelope(data: Value, asked: string, name: string) {
    && data.Get("error").None? && MessageOf(data).Some? && MessageOf(data).value.Object?
    && (if data.Get("model").Some? then data.Get("model").value == Str(name) && Nameable(Some(name)) else name == asked)
    && (MessageOf(data).value.Get("role").Some? ==> MessageOf(data).value.Get("role").value == Str("assistant"))
    && MessageOf(data).value.Get("function_call").None?
  }

  /** The content as text, None where there is none. */
  function ContentOf(data: Value): Option<string> {
    if MessageOf(data).Some? then TextOf(MessageOf(data).value.Get("content")) else None
  }

  predicate HasContent(offer: Option<Offer>, data: Value)
    requires MessageOf(data).Some?
  {
    var content := MessageOf(data).value.Get("content");
    if content.Some? then content.value.Null? || content.value.Str? else offer.None?
  }

  predicate FinishFits(offer: Option<Offer>, finish: Option<Value>) {
    finish.Some? && !finish.value.Null? ==>
      && finish.value.Str?
      && (if offer.Some? then finish.value.s == "stop" || finish.value.s == "tool_calls"
          else finish.value.s != "tool_calls")
  }

  /** What a response leaves in the parser. */
  lemma ResponseExactly(offer: Option<Offer>, asked: string, data: Value, st: State)
    ensures Response(offer, Start(asked), data) == Ok(st) <==>
            && Envelope(data, asked, st.model) && HasContent(offer, data) && FinishFits(offer, FinishOf(data))
            && TakeToolCalls(offer, map[], MessageOf(data).value.Get("tool_calls"), false) == Ok(st.calls)
            && st.content == ContentOf(data) && st.finish == TextOf(FinishOf(data)) && !st.done && st.sent == ""
  {
    hide Nameable, TakeToolCalls, Choice, Message, FinishReason, ReadModel, MessageOf, FinishOf, FinishFits;
    ModelRead(asked, data);
    ChoiceRead(data);
    if data.Object? && ReadModel(Start(asked), data).Ok? && MessageOf(data).Some? && MessageOf(data).value.Object? {
      var st1 := ReadModel(Start(asked), data).value;
      MessageRead(offer, st1, MessageOf(data).value);
      FinishRead(offer, st1, FinishOf(data));
      if Message(offer, st1, MessageOf(data).value, false).Ok? {
        FinishRead(offer, Message(offer, st1, MessageOf(data).value, false).value, FinishOf(data));
      }
    }
  }

  lemma ModelRead(asked: string, data: Value)
    ensures ReadModel(Start(asked), data) ==
            var name := data.Get("model");
            if data.Get("error").None? && (name.Some? ==> name.value.Str? && Nameable(Some(name.value.s)))
            then Ok(Start(if name.Some? then name.value.s else asked)) else Fail(ProtocolError)
  {
    hide Trim, UnitLength;
  }

  lemma ChoiceRead(data: Value)
    ensures var r := Choice(data, false);
            && (MessageOf(data).Some? ==>
                  && data.Object? && r.Ok? && r.value.Some? && r.value.value.Get("message") == MessageOf(data)
                  && r.value.value.Get("finish_reason") == FinishOf(data))
            && (MessageOf(data).None? ==>
                  r == Fail(ProtocolError) || (r.Ok? && r.value.Some? && r.value.value.Get("message").None?))
  {
  }

  lemma MessageRead(offer: Option<Offer>, st: State, m: Value)
    requires st.content.None? && st.calls == map[]
    ensures var r, calls, content := Message(offer, st, m, false),
            TakeToolCalls(offer, map[], m.Get("tool_calls"), false), m.Get("content");
            if (m.Get("role").Some? ==> m.Get("role").value == Str("assistant")) && m.Get("function_call").None?
               && (if content.Some? then content.value.Null? || content.value.Str? else offer.None?) && calls.Ok?
            then r == Ok(st.(calls := calls.value, content := TextOf(content)))
            else r == Fail(ProtocolError)
  {
    hide TakeToolCalls;
    var calls := TakeToolCalls(offer, map[], m.Get("tool_calls"), false);
    assert calls.Fail? ==> calls.error == ProtocolError;
    assert m.Get("content").Some? && m.Get("content").value.Str? ==>
             "" + m.Get("content").value.s == m.Get("content").value.s;
  }

  lemma FinishRead(offer: Option<Offer>, st: State, v: Option<Value>)
    ensures FinishReason(offer, st, v) ==
            if FinishFits(offer, v) then Ok(if TextOf(v).Some? then st.(finish := TextOf(v)) else st)
            else Fail(ProtocolError)
  {
  }

  // ---------- The answers ----------

  /** The entries of `tool_calls`; none when the field is missing. */
  predicate Lists(data: Value, items: seq<Value>)
    requires MessageOf(data).Some?
  {
    var calls := MessageOf(data).value.Get("tool_calls");
    if calls.Some? then calls.value == Array(items) else items == []
  }

  /** A text answer: the trimmed content, not blank, with no calls, finished as it should be. */
  ghost predicate IsText(offer: Option<Offer>, asked: string, data: Value, content: string, model: string) {
    && Envelope(data, asked, model) && HasContent(offer, data) && FinishFits(offer, FinishOf(data)) && Lists(data, [])
    && (offer.Some? ==> FinishOf(data) == Some(Str("stop")))
    && ContentOf(data).Some? && content == Trim(ContentOf(data).value) && content != ""
  }

  /** An answer of calls: as many as entries, each said by its own, with different ids and moderate arguments. */
  ghost predicate IsCalls(offer: Offer, decode: Decoder, asked: string, data: Value, preface: Option<string>,
                          model: string, tools: seq<ToolCall>, items: seq<Value>) {
    && Envelope(data, asked, model) && HasContent(Some(offer), data) && preface == ContentOf(data)
    && FinishOf(data) == Some(Str("tool_calls")) && Lists(data, items)
    && |items| == |tools| > 0 && DifferentIds(tools) && Moderate(tools)
    && forall k :: 0 <= k < |items| ==> Says(offer, decode, items[k], tools[k])
  }

  lemma NoTable()
    ensures WithinLimits(map[])
  {
    LlmProtocol.NoBytes(8);
  }

  lemma {:induction false} TableSize(items: seq<Value>, n: nat)
    requires n <= |items|
    ensures |TableOf(items, n)| == n
  {
    hide PartsOf;
    if n == 0 {
      assert TableOf(items, 0) == map[];
    } else {
      TableSize(items, n - 1);
      assert TableOf(items, n) == TableOf(items, n - 1)[n - 1 := PartsOf(items[n - 1])];
    }
  }

  /** What the entries of a whole message leave in the table. */
  lemma ToolCallsTaken(offer: Option<Offer>, v: Option<Value>)
    ensures TakeToolCalls(offer, map[], v, false) ==
            if v.None? || v.value == Array([]) then Ok(map[])
            else if v.value.Array? && offer.Some? && |v.value.items| <= 8 && AllPartial(offer.value, v.value.items)
                    && WithinLimits(TableOf(v.value.items, |v.value.items|))
            then Ok(TableOf(v.value.items, |v.value.items|))
            else Fail(ProtocolError)
  {
    hide AllPartial, WithinLimits, PartsOf;
    if v.Some? && v.value.Array? && offer.Some? && |v.value.items| <= 8 {
      var items := v.value.items;
      NoTable();
      assert TableOf(items, 0) == map[] && items[0..] == items;
      NoneYet(offer.value, items);
      TableTaken(offer.value, items, 0);
    }
  }

  lemma NoCallsTaken(offer: Option<Offer>, v: Option<Value>)
    ensures TakeToolCalls(offer, map[], v, false) == Ok(map[]) <==> v.None? || v.value == Array([])
  {
    hide TakeToolCalls, AllPartial, WithinLimits, TableOf;
    ToolCallsTaken(offer, v);
    if v.Some? && v.value.Array? {
      TableSize(v.value.items, |v.value.items|);
    }
  }

  lemma NoneYet(offer: Offer, items: seq<Value>)
    ensures AllPartial(offer, items[..0])
  {
  }

  lemma OneSays(offer: Offer, decode: Decoder, item: Value, call: ToolCall)
    ensures Says(offer, decode, item, call) <==>
            item.Object? && Partial(offer, item) && FinishCall(offer, decode, PartsOf(item)) == Ok(call)
    ensures Says(offer, decode, item, call) ==> PartsOf(item).rawArguments == call.rawArguments
  {
    hide TakeDelta, Nameable, FinishCall;
    PartsTaken(offer, item);
    SaysExactly(offer, decode, item, call);
    hide Partial;
  }

  /** Reading all entries and finishing them gives the calls they stand for, and no others. */
  lemma EntriesSay(offer: Offer, decode: Decoder, items: seq<Value>, tools: seq<ToolCall>)
    requires |items| == |tools|
    ensures (&& |items| <= 8 && AllPartial(offer, items) && WithinLimits(TableOf(items, |items|))
             && FinishCalls(offer, decode, TableOf(items, |items|), |items|) == Ok(tools)) <==>
            (&& Moderate(tools) && DifferentIds(tools)
             && forall k :: 0 <= k < |items| ==> Says(offer, decode, items[k], tools[k]))
  {
    hide FinishCall, FinishCalls, Says, Partial, PartsOf, WithinLimits, Moderate, DifferentIds;
    var table := TableOf(items, |items|);
    FinishExactly(offer, decode, table, |items|, tools);
    forall k: nat | k < |items|
      ensures k in table && table[k] == PartsOf(items[k])
      ensures Says(offer, decode, items[k], tools[k]) <==>
              items[k].Object? && Partial(offer, items[k]) && FinishCall(offer, decode, table[k]) == Ok(tools[k])
      ensures Says(offer, decode, items[k], tools[k]) ==> PartsOf(items[k]).rawArguments == tools[k].rawArguments
    {
      OneSays(offer, decode, items[k], tools[k]);
    }
    hide TableOf;
    if forall k :: 0 <= k < |items| ==> Says(offer, decode, items[k], tools[k]) {
      ModerateIsWithin(items, tools);
    }
    AtMost(tools);
  }

  lemma AtMost(tools: seq<ToolCall>)
    ensures Moderate(tools) ==> |tools| <= 8
  {
  }

  /** A whole response answers in text exactly when its fields say so, and then with that text. */
  lemma TextExactly(offer: Option<Offer>, decode: Decoder, asked: string, data: Value, content: string, model: string)
    ensures Whole(offer, decode, asked, data) == Ok(TextResult(content, model)) <==>
            IsText(offer, asked, data, content, model)
  {
    hide Nameable, HasContent, FinishFits, Response, ResultOf, TakeToolCalls, Trim, ContentOf, MessageOf, FinishOf;
    var r := Response(offer, Start(asked), data);
    if r.Ok? {
      ResponseExactly(offer, asked, data, r.value);
      NoCallsTaken(offer, MessageOf(data).value.Get("tool_calls"));
      TextNotCalls(offer, decode, r.value, content, model);
    }
    if IsText(offer, asked, data, content, model) {
      var st := State(model, ContentOf(data), map[], TextOf(FinishOf(data)), false, "");
      NoCallsTaken(offer, MessageOf(data).value.Get("tool_calls"));
      ResponseExactly(offer, asked, data, st);
      TextNotCalls(offer, decode, st, content, model);
    }
  }

  lemma TextNotCalls(offer: Option<Offer>, decode: Decoder, st: State, content: string, model: string)
    ensures ResultOf(offer, decode, st, false) == Ok(TextResult(content, model)) <==>
            && st.calls == map[] && (offer.Some? ==> st.finish == Some("stop")) && model == st.model
            && st.content.Some? && content == Trim(st.content.value) && content != ""
  {
    hide Trim, FinishCalls;
  }

  lemma CallsNotText(offer: Offer, decode: Decoder, st: State, preface: Option<string>, model: string,
                     tools: seq<ToolCall>)
    ensures ResultOf(Some(offer), decode, st, false) == Ok(CallsResult(preface, model, tools)) <==>
            && |st.calls| > 0 && st.finish == Some("tool_calls") && preface == st.content && model == st.model
            && FinishCalls(offer, decode, st.calls, |st.calls|) == Ok(tools)
  {
    hide Trim, FinishCalls;
  }

  /** It answers with calls exactly when its fields say so, and then with those calls. */
  lemma CallsExactly(offer: Offer, decode: Decoder, asked: string, data: Value, preface: Option<string>,
                     model: string, tools: seq<ToolCall>)
    ensures Whole(Some(offer), decode, asked, data) == Ok(CallsResult(preface, model, tools)) <==>
            exists items :: IsCalls(offer, decode, asked, data, preface, model, tools, items)
  {
    hide Nameable, HasContent, FinishFits, Response, ResultOf, TakeToolCalls, ContentOf, MessageOf, FinishOf, Says,
         Moderate, DifferentIds, FinishCalls, AllPartial, WithinLimits, TableOf;
    var r := Response(Some(offer), Start(asked), data);
    if r.Ok? && ResultOf(Some(offer), decode, r.value, false) == Ok(CallsResult(preface, model, tools)) {
      var st := r.value;
      ResponseExactly(Some(offer), asked, data, st);
      CallsNotText(offer, decode, st, preface, model, tools);
      var v := MessageOf(data).value.Get("tool_calls");
      ToolCallsTaken(Some(offer), v);
      var items := v.value.items;
      TableSize(items, |items|);
      LengthFinished(offer, decode, st.calls, tools);
      EntriesSay(offer, decode, items, tools);
      FinishNamed(data, "tool_calls");
      assert IsCalls(offer, decode, asked, data, preface, model, tools, items);
    }
    if exists items :: IsCalls(offer, decode, asked, data, preface, model, tools, items) {
      var items :| IsCalls(offer, decode, asked, data, preface, model, tools, items);
      ToolCallsTaken(Some(offer), MessageOf(data).value.Get("tool_calls"));
      EntriesSay(offer, decode, items, tools);
      TableSize(items, |items|);
      FinishNamed(data, "tool_calls");
      var st := State(model, preface, TableOf(items, |items|), Some("tool_calls"), false, "");
      ResponseExactly(Some(offer), asked, data, st);
      CallsNotText(offer, decode, st, preface, model, tools);
    }
  }

  lemma LengthFinished(offer: Offer, decode: Decoder, calls: map<nat, PendingCall>, tools: seq<ToolCall>)
    requires FinishCalls(offer, decode, calls, |calls|) == Ok(tools)
    ensures |tools| == |calls|
  {
    hide FinishCall;
    FinishExactly(offer, decode, calls, |calls|, tools);
  }

  lemma FinishNamed(data: Value, name: string)
    ensures TextOf(FinishOf(data)) == Some(name) <==> FinishOf(data) == Some(Str(name))
    ensures name == "tool_calls" && FinishOf(data) == Some(Str(name)) ==>
              forall o: Offer :: FinishFits(Some(o), FinishOf(data))
  {
  }

  // ---------- Streams ----------

  /** A call as it may be handed on: named, on offer, with a record for arguments. */
  ghost predicate Callable(offer: Offer, decode: Decoder, call: ToolCall) {
    && Nameable(Some(call.id)) && offer.mayCall
    && (exists alias :: alias in offer.aliases && offer.aliases[alias] == call.name)
    && decode(call.rawArguments) == Some(Object(call.args))
  }

  lemma FinishedIsCallable(offer: Offer, decode: Decoder, call: PendingCall, tool: ToolCall)
    requires FinishCall(offer, decode, call) == Ok(tool)
    ensures Callable(offer, decode, tool) && tool.rawArguments == call.rawArguments
  {
    hide Trim, UnitLength;
  }

  /** Whatever the chunks of a stream say, calls that come out of it differ in id, are callable, and are moderate. */
  lemma StreamedCallsSound(offer: Offer, decode: Decoder, asked: string, payloads: seq<Value>, r: LlmResult)
    requires Streamed(Some(offer), decode, asked, payloads) == Ok(r) && r.CallsResult?
    ensures 0 < |r.toolCalls| <= 8 && DifferentIds(r.toolCalls)
    ensures forall k :: 0 <= k < |r.toolCalls| ==>
                          && Callable(offer, decode, r.toolCalls[k])
                          && ByteLength(r.toolCalls[k].rawArguments) <= 65_536
    ensures RawBytes(r.toolCalls) <= 262_144
  {
    hide Chunks, Callable, ByteLength, WithinLimits;
    var st := Chunks(Some(offer), Start(asked), payloads).value;
    NoTable();
    ChunksKeepLimits(Some(offer), Start(asked), payloads);
    FinishExactly(offer, decode, st.calls, |st.calls|, r.toolCalls);
    hide FinishCall;
    forall k: nat | k < |r.toolCalls|
      ensures Callable(offer, decode, r.toolCalls[k]) && r.toolCalls[k].rawArguments == st.calls[k].rawArguments
    {
      FinishedIsCallable(offer, decode, st.calls[k], r.toolCalls[k]);
    }
    WithinTable(st.calls, r.toolCalls);
  }

  lemma WithinTable(calls: map<nat, PendingCall>, tools: seq<ToolCall>)
    requires WithinLimits(calls) && |tools| <= 8
    requires forall k: nat :: k < |tools| ==> k in calls && tools[k].rawArguments == calls[k].rawArguments
    ensures RawBytes(tools) <= 262_144
    ensures forall k :: 0 <= k < |tools| ==> ByteLength(tools[k].rawArguments) <= 65_536
  {
    hide ByteLength, TotalBytes, RawBytes;
    TableBytes(calls, tools, |tools|);
    assert tools[..|tools|] == tools;
    MoreBytes(calls, |tools|, 8);
    assert forall k: nat :: k < |tools| ==> BytesAt(calls, k) == ByteLength(tools[k].rawArguments);
  }

  lemma {:induction false} TableBytes(calls: map<nat, PendingCall>, tools: seq<ToolCall>, n: nat)
    requires n <= |tools|
    requires forall k: nat :: k < |tools| ==> k in calls && tools[k].rawArguments == calls[k].rawArguments
    ensures RawBytes(tools[..n]) == TotalBytes(calls, n)
  {
    hide ByteLength;
    if n > 0 {
      TableBytes(calls, tools, n - 1);
      assert tools[..n][..n - 1] == tools[..n - 1];
    }
  }

  lemma {:induction false} MoreBytes(calls: map<nat, PendingCall>, m: nat, n: nat)
    requires m <= n
    ensures TotalBytes(calls, m) <= TotalBytes(calls, n)
  {
    if m < n {
      MoreBytes(calls, m, n - 1);
    }
  }

  /** What a chunk after the finish may hold would have added nothing before it either. */
  lemma EchoIsIdle(offer: Option<Offer>, st: State, choice: Value)
    requires st.finish.Some? && !st.done && (offer.Some? ==> st.finish.value in {"stop", "tool_calls"})
             && (offer.None? ==> st.finish.value != "tool_calls")
    requires ChunkChoice(offer, st, choice).Ok?
    ensures var r := ChunkChoice(offer, st.(finish := None), choice);
            && r.Ok? && r.value.calls == st.calls && Said(r.value.content) == Said(st.content)
            && r.value.sent == st.sent && r.value.model == st.model && r.value.finish in {None, st.finish}
  {
    assert st.sent + "" == st.sent && Said(st.content) + "" == Said(st.content);
  }

  /** A stream that only stopped, without its end marker, hands on no call. */
  lemma UnendedYieldsNoCall(setup: Setup, model: string, text: string, tail: string)
    requires setup.start == Start(model) && Reached(setup, text, tail).phase.Going?
    ensures var r := Outcome(setup, Reached(setup, text, tail)); r.Ok? ==> r.value.TextResult?
  {
    hide Split, After, AtEnd, FinishCalls, Trim;
    var lines := Split(text);
    NeverDone(setup, lines[..|lines| - 1]);
    RestNotDone(setup, After(setup, lines[..|lines| - 1]), lines[|lines| - 1], tail);
  }

  predicate NotDone(p: Progress) {
    p.phase.Going? ==> !p.phase.st.done
  }

  lemma TakeNotDone(setup: Setup, p: Progress, raw: string)
    requires NotDone(p)
    ensures NotDone(Take(setup, p, raw))
  {
    hide Kind, TerminalEcho, TakeToolCalls;
  }

  lemma {:induction false} NeverDone(setup: Setup, lines: seq<string>)
    requires !setup.start.done
    ensures NotDone(After(setup, lines))
  {
    hide Take;
    if lines != [] {
      NeverDone(setup, lines[..|lines| - 1]);
      TakeNotDone(setup, After(setup, lines[..|lines| - 1]), lines[|lines| - 1]);
    }
  }

  lemma RestNotDone(setup: Setup, p: Progress, rest: string, tail: string)
    requires NotDone(p)
    ensures NotDone(AtEnd(setup, p, rest, tail))
  {
    hide Take;
    TakeNotDone(setup, p, rest + tail);
  }
}
