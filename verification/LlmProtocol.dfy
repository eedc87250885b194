/** The completion parser: one whole response, or the same assembled from streamed deltas. */
module LlmProtocol {
  import opened Wrappers
  import opened Text
  import opened Json

  const MAX_CALLS: nat := 8
  const MAX_ARGUMENT_BYTES: nat := 64 * 1024
  const MAX_TOTAL_ARGUMENT_BYTES: nat := 256 * 1024
  const MAX_METADATA_CHARS: nat := 128

  /** Every violation is the one protocol error. */
  datatype ProtocolError = ProtocolError

  type Checked<T> = Result<T, ProtocolError>

  /** What the request offered: provider aliases with the tool behind each, and whether calls are allowed at all. */
  datatype Offer = Offer(aliases: map<string, string>, mayCall: bool)

  datatype PendingCall = PendingCall(id: Option<string>, typed: bool, name: Option<string>, rawArguments: string)

  datatype ToolCall = ToolCall(id: string, name: string, rawArguments: string, args: map<string, Value>)

  /** `preface` is the text a model sends along with its calls. */
  datatype LlmResult =
    | TextResult(content: string, model: string)
    | CallsResult(preface: Option<string>, model: string, toolCalls: seq<ToolCall>)

  /** Parser state; `sent` is everything forwarded to the token sink so far. */
  datatype State = State(
    model: string, content: Option<string>, calls: map<nat, PendingCall>, finish: Option<string>, done: bool,
        sent: string)

  /** JSON text decoding, which the parser only calls. */
  type Decoder = string -> Option<Value>

  const EMPTY_CALL := PendingCall(None, false, None, "")

  function Start(model: string): State {
    State(model, None, map[], None, false, "")
  }

  // ---------- Checks ----------

  predicate ValidMetadata(s: string) {
    Trim(s) != "" && UnitLength(s) <= MAX_METADATA_CHARS
  }

  function Metadata(v: Option<Value>): Checked<string> {
    if v.Some? && v.value.Str? && ValidMetadata(v.value.s) then Ok(v.value.s) else Fail(ProtocolError)
  }

  function Resolve(offer: Offer, alias: string): Checked<string> {
    if alias in offer.aliases && offer.mayCall then Ok(offer.aliases[alias]) else Fail(ProtocolError)
  }

  function BytesAt(calls: map<nat, PendingCall>, i: nat): nat {
    if i in calls then ByteLength(calls[i].rawArguments) else 0
  }

  function TotalBytes(calls: map<nat, PendingCall>, n: nat): nat {
    if n == 0 then 0 else TotalBytes(calls, n - 1) + BytesAt(calls, n - 1)
  }

  predicate WithinLimits(calls: map<nat, PendingCall>) {
    && (forall i: nat :: i in calls ==> i < MAX_CALLS)
    && (forall i :: 0 <= i < MAX_CALLS ==> BytesAt(calls, i) <= MAX_ARGUMENT_BYTES)
    && TotalBytes(calls, MAX_CALLS) <= MAX_TOTAL_ARGUMENT_BYTES
  }

  // ---------- Assembling calls ----------

  function CallIndex(position: Option<nat>, delta: Value): Option<nat> {
    match position
    case Some(i) => if i < MAX_CALLS then Some(i) else None
    case None =>
      var n := if delta.Get("index").Some? then delta.Get("index").value.Numeric() else None;
      if n.Some? && n.value == n.value.Floor as real && 0 <= n.value.Floor < MAX_CALLS
        then Some(n.value.Floor) else None
  }

  function TakeId(call: PendingCall, id: Option<Value>): Checked<PendingCall> {
    if id.None? then Ok(call)
    else if call.id.Some? then Fail(ProtocolError)
    else
      match Metadata(id)
      case Fail(e) => Fail(e)
      case Ok(s) => Ok(call.(id := Some(s)))
  }

  function TakeType(call: PendingCall, t: Option<Value>): Checked<PendingCall> {
    if t.None? then Ok(call)
    else if call.typed || t.value != Str("function") then Fail(ProtocolError)
    else Ok(call.(typed := true))
  }

  function TakeName(offer: Offer, call: PendingCall, name: Option<Value>): Checked<PendingCall> {
    if name.None? then Ok(call)
    else if call.name.Some? then Fail(ProtocolError)
    else
      match Metadata(name)
      case Fail(e) => Fail(e)
      case Ok(s) => if Resolve(offer, s).Ok? then Ok(call.(name := Some(s))) else Fail(ProtocolError)
  }

  function TakeArguments(call: PendingCall, arguments: Option<Value>): Checked<PendingCall> {
    if arguments.None? then Ok(call)
    else if !arguments.value.Str? then Fail(ProtocolError)
    else Ok(call.(rawArguments := call.rawArguments + arguments.value.s))
  }

  function TakeFunction(offer: Offer, call: PendingCall, fn: Option<Value>): Checked<PendingCall> {
    if fn.None? then Ok(call)
    else if !fn.value.Object? then Fail(ProtocolError)
    else
      match TakeName(offer, call, fn.value.Get("name"))
      case Fail(e) => Fail(e)
      case Ok(named) => TakeArguments(named, fn.value.Get("arguments"))
  }

  function TakeDelta(offer: Offer, call: PendingCall, delta: Value): Checked<PendingCall> {
    match TakeId(call, delta.Get("id"))
    case Fail(e) => Fail(e)
    case Ok(c1) =>
      match TakeType(c1, delta.Get("type"))
      case Fail(e) => Fail(e)
      case Ok(c2) => TakeFunction(offer, c2, delta.Get("function"))
  }

  function AddCall(offer: Offer, calls: map<nat, PendingCall>, delta: Value,
                   position: Option<nat>): Checked<map<nat, PendingCall>> {
    var index := CallIndex(position, delta);
    if !delta.Object? || index.None? then Fail(ProtocolError)
    else
      var call := if index.value in calls then calls[index.value] else EMPTY_CALL;
      match TakeDelta(offer, call, delta)
      case Fail(e) => Fail(e)
      case Ok(call') =>
        var calls' := calls[index.value := call'];
        if WithinLimits(calls') then Ok(calls') else Fail(ProtocolError)
  }

  /** The entries of `tool_calls` in order; a whole response takes its positions as indices. */
  function AddCalls(offer: Offer, calls: map<nat, PendingCall>, deltas: seq<Value>, stream: bool,
                    from: nat): Checked<map<nat, PendingCall>>
    decreases deltas
  {
    if deltas == [] then Ok(calls)
    else
      match AddCall(offer, calls, deltas[0], if stream then None else Some(from))
      case Fail(e) => Fail(e)
      case Ok(calls') => AddCalls(offer, calls', deltas[1..], stream, from + 1)
  }

  predicate OptionalContent(v: Option<Value>) {
    v.None? || v.value.Null? || v.value.Str?
  }

  function TakeToolCalls(offer: Option<Offer>, calls: map<nat, PendingCall>, v: Option<Value>,
                         stream: bool): Checked<map<nat, PendingCall>> {
    if v.None? then Ok(calls)
    else if !v.value.Array? || |v.value.items| > MAX_CALLS then Fail(ProtocolError)
    else if v.value.items == [] then Ok(calls)
    else if offer.None? then Fail(ProtocolError)
    else AddCalls(offer.value, calls, v.value.items, stream, 0)
  }

  function TakeContent(content: Option<string>, v: Option<Value>): Option<string> {
    if v.Some? && v.value.Str? then Some((if content.Some? then content.value else "") + v.value.s) else content
  }

  function Message(offer: Option<Offer>, st: State, m: Value, stream: bool): Checked<State> {
    var role, content := m.Get("role"), m.Get("content");
    if role.Some? && role.value != Str("assistant") then Fail(ProtocolError)
    else if m.Get("function_call").Some? then Fail(ProtocolError)
    else if !OptionalContent(content) then Fail(ProtocolError)
    else if !stream && offer.Some? && content.None? then Fail(ProtocolError)
    else
      match TakeToolCalls(offer, st.calls, m.Get("tool_calls"), stream)
      case Fail(e) => Fail(e)
      case Ok(calls) => Ok(st.(calls := calls, content := TakeContent(st.content, content)))
  }

  function FinishReason(offer: Option<Offer>, st: State, v: Option<Value>): Checked<State> {
    if v.None? || v.value.Null? then Ok(st)
    else if !v.value.Str? then Fail(ProtocolError)
    else if offer.Some? && v.value.s != "stop" && v.value.s != "tool_calls" then Fail(ProtocolError)
    else if offer.None? && v.value.s == "tool_calls" then Fail(ProtocolError)
    else Ok(st.(finish := Some(v.value.s)))
  }

  function ReadModel(st: State, data: Value): Checked<State> {
    var named := if data.Get("model").Some? then Metadata(data.Get("model")) else Ok(st.model);
    if named.Fail? || data.Get("error").Some? then Fail(ProtocolError) else Ok(st.(model := named.value))
  }

  /** The one choice of a payload; None is a usage-only chunk. */
  function Choice(data: Value, stream: bool): Checked<Option<Value>> {
    var choices := data.Get("choices");
    if choices.None? || !choices.value.Array? then Fail(ProtocolError)
    else if stream && choices.value.items == [] && data.Get("usage").Some? then
      if data.Get("usage").value.Object? then Ok(None) else Fail(ProtocolError)
    else if |choices.value.items| != 1 then Fail(ProtocolError)
    else
      var choice := choices.value.items[0];
      var index := choice.Get("index");
      if !choice.Object? || (index.Some? && index.value.Numeric() != Some(0.0))
        then Fail(ProtocolError) else Ok(Some(choice))
  }

  /** A choice after the finish that adds nothing. */
  predicate TerminalEcho(st: State, choice: Value) {
    var finish, delta := choice.Get("finish_reason"), choice.Get("delta");
    && (finish.None? || finish.value.Null? || (finish.value.Str? && st.finish == Some(finish.value.s)))
    && delta.Some? && delta.value.Object?
    && (delta.value.Get("role").None? || delta.value.Get("role").value == Str("assistant"))
    && (delta.value.Get("content").None? || delta.value.Get("content").value in {Null, Str("")})
    && delta.value.Get("tool_calls").None? && delta.value.Get("function_call").None?
  }

  // ---------- One payload ----------

  function Response(offer: Option<Offer>, st: State, data: Value): Checked<State> {
    if !data.Object? then Fail(ProtocolError)
    else
      match ReadModel(st, data)
      case Fail(e) => Fail(e)
      case Ok(st1) =>
        match Choice(data, false)
        case Fail(e) => Fail(e)
        case Ok(None) => Fail(ProtocolError)
        case Ok(Some(choice)) =>
          var message := choice.Get("message");
          if message.None? || !message.value.Object? then Fail(ProtocolError)
          else
            match Message(offer, st1, message.value, false)
            case Fail(e) => Fail(e)
            case Ok(st2) => FinishReason(offer, st2, choice.Get("finish_reason"))
  }

  function Chunk(offer: Option<Offer>, st: State, data: Value): Checked<State> {
    if !data.Object? then Fail(ProtocolError)
    else
      match ReadModel(st, data)
      case Fail(e) => Fail(e)
      case Ok(st1) =>
        match Choice(data, true)
        case Fail(e) => Fail(e)
        case Ok(None) => Ok(st1)
        case Ok(Some(choice)) => ChunkChoice(offer, st1, choice)
  }

  function ChunkChoice(offer: Option<Offer>, st: State, choice: Value): Checked<State> {
    if st.finish.Some? || st.done then
      if TerminalEcho(st, choice) then Ok(st) else Fail(ProtocolError)
    else
      var delta := choice.Get("delta");
      if delta.None? || !delta.value.Object? then Fail(ProtocolError)
      else
        match Message(offer, st, delta.value, true)
        case Fail(e) => Fail(e)
        case Ok(st1) =>
          match FinishReason(offer, st1, choice.Get("finish_reason"))
          case Fail(e) => Fail(e)
          case Ok(st2) =>
            var content := delta.value.Get("content");
            Ok(st2.(sent := st2.sent + (if content.Some? && content.value.Str? then content.value.s else "")))
  }

  // ---------- The result ----------

  function FinishCall(offer: Offer, decode: Decoder, call: PendingCall): Checked<ToolCall> {
    if !call.typed || call.id.None? || !ValidMetadata(call.id.value) || call.name.None?
       || !ValidMetadata(call.name.value) then Fail(ProtocolError)
    else
      match Resolve(offer, call.name.value)
      case Fail(e) => Fail(e)
      case Ok(tool) =>
        var args := decode(call.rawArguments);
        if args.Some? && args.value.Object? then Ok(ToolCall(call.id.value, tool, call.rawArguments, args.value.fields))
        else Fail(ProtocolError)
  }

  /** The calls 0 to n-1, all present and finished, with ids not seen before. */
  function FinishCalls(offer: Offer, decode: Decoder, calls: map<nat, PendingCall>, n: nat): (r: Checked<seq<ToolCall>>)
    ensures r.Ok? ==> |r.value| == n
  {
    if n == 0 then Ok([])
    else
      match FinishCalls(offer, decode, calls, n - 1)
      case Fail(e) => Fail(e)
      case Ok(done) =>
        if n - 1 !in calls then Fail(ProtocolError)
        else
          match FinishCall(offer, decode, calls[n - 1])
          case Fail(e) => Fail(e)
          case Ok(call) =>
              if exists k :: 0 <= k < |done| && done[k].id == call.id then Fail(ProtocolError) else Ok(done + [call])
  }

  function ResultOf(offer: Option<Offer>, decode: Decoder, st: State, stream: bool): Checked<LlmResult> {
    if |st.calls| > 0 then
      if offer.None? || st.finish != Some("tool_calls") || (stream && !st.done) then Fail(ProtocolError)
      else
        match FinishCalls(offer.value, decode, st.calls, |st.calls|)
        case Fail(e) => Fail(e)
        case Ok(toolCalls) => Ok(CallsResult(st.content, st.model, toolCalls))
    else if offer.Some? && st.finish != Some("stop") then Fail(ProtocolError)
    else
      var content := if st.content.None? then "" else if stream then st.content.value else Trim(st.content.value);
      if content == "" then Fail(ProtocolError) else Ok(TextResult(content, st.model))
  }

  // ---------- Whole answers ----------

  function Whole(offer: Option<Offer>, decode: Decoder, model: string, data: Value): Checked<LlmResult> {
    match Response(offer, Start(model), data)
    case Fail(e) => Fail(e)
    case Ok(st) => ResultOf(offer, decode, st, false)
  }

  function Chunks(offer: Option<Offer>, st: State, payloads: seq<Value>): Checked<State>
    decreases payloads
  {
    if payloads == [] then Ok(st)
    else
      match Chunk(offer, st, payloads[0])
      case Fail(e) => Fail(e)
      case Ok(st') => Chunks(offer, st', payloads[1..])
  }

  /** The payloads of a stream closed by its end marker. */
  function Streamed(offer: Option<Offer>, decode: Decoder, model: string, payloads: seq<Value>): Checked<LlmResult> {
    match Chunks(offer, Start(model), payloads)
    case Fail(e) => Fail(e)
    case Ok(st) => ResultOf(offer, decode, st.(done := true), true)
  }

  // ---------- What every accepted state satisfies ----------

  lemma {:induction false} AddCallsKeepLimits(offer: Offer, calls: map<nat, PendingCall>, deltas: seq<Value>,
                                              stream: bool, from: nat)
    requires WithinLimits(calls)
    ensures AddCalls(offer, calls, deltas, stream, from).Ok? ==>
              WithinLimits(AddCalls(offer, calls, deltas, stream, from).value)
    decreases deltas
  {
    hide WithinLimits;
    if deltas != [] && AddCall(offer, calls, deltas[0], if stream then None else Some(from)).Ok? {
      AddCallsKeepLimits(offer, AddCall(offer, calls, deltas[0], if stream then None else Some(from)).value,
                         deltas[1..], stream, from + 1);
    }
  }

  lemma MessageKeepsLimits(offer: Option<Offer>, st: State, m: Value, stream: bool)
    requires WithinLimits(st.calls)
    ensures Message(offer, st, m, stream).Ok? ==> WithinLimits(Message(offer, st, m, stream).value.calls)
  {
    hide WithinLimits;
    if offer.Some? && m.Get("tool_calls").Some? && m.Get("tool_calls").value.Array? {
      AddCallsKeepLimits(offer.value, st.calls, m.Get("tool_calls").value.items, stream, 0);
    }
  }

  /** After any accepted chunks: at most eight calls, each within its limit, all within the total; every token sent. */
  lemma {:induction false} ChunksKeepLimits(offer: Option<Offer>, st: State, payloads: seq<Value>)
    requires WithinLimits(st.calls) && st.sent == (if st.content.Some? then st.content.value else "")
    ensures Chunks(offer, st, payloads).Ok? ==>
              var st' := Chunks(offer, st, payloads).value;
              && WithinLimits(st'.calls) && |st'.calls| <= MAX_CALLS
              && st'.sent == (if st'.content.Some? then st'.content.value else "")
    decreases payloads
  {
    hide WithinLimits;
    AtMostEight(st.calls);
    if payloads != [] && Chunk(offer, st, payloads[0]).Ok? {
      ChunkKeepsLimits(offer, st, payloads[0]);
      ChunksKeepLimits(offer, Chunk(offer, st, payloads[0]).value, payloads[1..]);
    }
  }

  lemma ChunkKeepsLimits(offer: Option<Offer>, st: State, data: Value)
    requires WithinLimits(st.calls) && st.sent == (if st.content.Some? then st.content.value else "")
    requires Chunk(offer, st, data).Ok?
    ensures var st' := Chunk(offer, st, data).value;
            WithinLimits(st'.calls) && st'.sent == (if st'.content.Some? then st'.content.value else "")
  {
    hide WithinLimits, TakeToolCalls;
    var st1 := ReadModel(st, data).value;
    var choice := Choice(data, true).value;
    if choice.Some? && choice.value.Get("delta").Some? {
      MessageKeepsLimits(offer, st1, choice.value.Get("delta").value, true);
    }
  }

  lemma AtMostEight(calls: map<nat, PendingCall>)
    requires WithinLimits(calls)
    ensures |calls| <= MAX_CALLS
  {
    KeysBelow(calls.Keys, MAX_CALLS);
    assert |calls| == |calls.Keys|;
  }

  lemma {:induction false} KeysBelow(keys: set<nat>, n: nat)
    requires forall k <- keys :: k < n
    ensures |keys| <= n
  {
    if n == 0 {
      assert keys == {};
    } else {
      KeysBelow(keys - {n - 1}, n - 1);
    }
  }

  /** The limits also hold of everything a whole response is accepted with. */
  lemma ResponseKeepsLimits(offer: Option<Offer>, model: string, data: Value)
    ensures Response(offer, Start(model), data).Ok? ==> WithinLimits(Response(offer, Start(model), data).value.calls)
  {
    assert TotalBytes(map[], 8) == 0 by { NoBytes(8); }
    if data.Object? && ReadModel(Start(model), data).Ok? && Choice(data, false).Ok? && Choice(data, false).value.Some? {
      var choice := Choice(data, false).value.value;
      if choice.Get("message").Some? {
        hide WithinLimits, Message;
        MessageKeepsLimits(offer, ReadModel(Start(model), data).value, choice.Get("message").value, false);
      }
    }
  }

  lemma {:induction false} NoBytes(n: nat)
    ensures TotalBytes(map[], n) == 0
  {
    if n > 0 {
      NoBytes(n - 1);
    }
  }

  /** When calls are not allowed, no whole response and no stream ever yields one. */
  lemma NoCallsWithoutPermission(offer: Offer, decode: Decoder, model: string, data: Value, payloads: seq<Value>)
    requires !offer.mayCall
    ensures Whole(Some(offer), decode, model, data).Ok? ==> Whole(Some(offer), decode, model, data).value.TextResult?
    ensures Streamed(Some(offer), decode, model, payloads).Ok? ==>
              Streamed(Some(offer), decode, model, payloads).value.TextResult?
  {
    hide Response, Chunks;
    if Response(Some(offer), Start(model), data).Ok? {
      var calls := Response(Some(offer), Start(model), data).value.calls;
      NoCallFinishes(offer, decode, calls, |calls|);
    }
    if Chunks(Some(offer), Start(model), payloads).Ok? {
      var calls := Chunks(Some(offer), Start(model), payloads).value.calls;
      NoCallFinishes(offer, decode, calls, |calls|);
    }
  }

  lemma {:induction false} NoCallFinishes(offer: Offer, decode: Decoder, calls: map<nat, PendingCall>, n: nat)
    requires !offer.mayCall
    ensures n > 0 ==> FinishCalls(offer, decode, calls, n).Fail?
  {
    if n > 1 {
      NoCallFinishes(offer, decode, calls, n - 1);
    }
  }

  /** After the finish an accepted chunk changes nothing but the model name. */
  lemma EchoAddsNothing(offer: Option<Offer>, st: State, data: Value)
    requires st.finish.Some? || st.done
    ensures Chunk(offer, st, data).Ok? ==>
              Chunk(offer, st, data).value == st.(model := Chunk(offer, st, data).value.model)
  {
    hide TerminalEcho, Message;
  }
}
