/** The parser object: its methods step the fields exactly as the functions of `LlmProtocol` step a state. */
module LlmParsers {
  import opened Wrappers
  import opened Text
  import opened Json
  import opened LlmProtocol

  class CompletionParser {
    const offer: Option<Offer>
    var model: string
    var content: Option<string>
    var calls: map<nat, PendingCall>
    var finish: Option<string>
    var done: bool
    /** Everything handed to the token sink. */
    var sent: string

    function Now(): State
      reads this
    {
      State(model, content, calls, finish, done, sent)
    }

    constructor (model: string, offer: Option<Offer>)
      ensures Now() == Start(model) && this.offer == offer
    {
      this.model, this.offer := model, offer;
      content, calls, finish, done, sent := None, map[], None, false, "";
    }

    /** What a step that may throw leaves behind; after a throw nobody looks at the parser again. */
    twostate predicate Stepped(ok: bool, spec: Checked<State>)
      reads this
    {
      ok == spec.Ok? && (ok ==> Now() == spec.value)
    }

    /** A whole response and its result. */
    method Response(decode: Decoder, data: Value) returns (r: Checked<LlmResult>)
      modifies this
      ensures r == match LlmProtocol.Response(offer, old(Now()), data)
                   case Fail(e) => Fail(e)
                   case Ok(st) => ResultOf(offer, decode, st, false)
    {
      hide LlmProtocol.Response, ResultOf;
      var ok := TakeResponse(data);
      if !ok {
        assert LlmProtocol.Response(offer, old(Now()), data).error == ProtocolError;
        return Fail(ProtocolError);
      }
      r := Result(decode, false);
    }

    method TakeResponse(data: Value) returns (ok: bool)
      modifies this
      ensures Stepped(ok, LlmProtocol.Response(offer, old(Now()), data))
    {
      hide LlmProtocol.Message, LlmProtocol.ReadModel, LlmProtocol.FinishReason, LlmProtocol.Choice;
      if !data.Object? {
        return false;
      }
      var named := ReadModel(data);
      if !named {
        return false;
      }
      var choice := LlmProtocol.Choice(data, false);
      if choice.Fail? || choice.value.None? {
        return false;
      }
      var message := choice.value.value.Get("message");
      if message.None? || !message.value.Object? {
        return false;
      }
      var taken := Message(message.value, false);
      if !taken {
        return false;
      }
      ok := FinishReason(choice.value.value.Get("finish_reason"));
    }

    method ReadModel(data: Value) returns (ok: bool)
      modifies this
      ensures Stepped(ok, LlmProtocol.ReadModel(old(Now()), data))
    {
      if data.Get("model").Some? {
        var named := Metadata(data.Get("model"));
        if named.Fail? {
          return false;
        }
        model := named.value;
      }
      ok := data.Get("error").None?;
    }

    method FinishReason(v: Option<Value>) returns (ok: bool)
      modifies this
      ensures Stepped(ok, LlmProtocol.FinishReason(offer, old(Now()), v))
    {
      if v.None? || v.value.Null? {
        return true;
      }
      if !v.value.Str? || (offer.Some? && v.value.s != "stop" && v.value.s != "tool_calls")
         || (offer.None? && v.value.s == "tool_calls") {
        return false;
      }
      finish := Some(v.value.s);
      ok := true;
    }

    method Message(m: Value, stream: bool) returns (ok: bool)
      modifies this
      ensures Stepped(ok, LlmProtocol.Message(offer, old(Now()), m, stream))
    {
      hide AddCalls;
      var role, text, deltas := m.Get("role"), m.Get("content"), m.Get("tool_calls");
      if (role.Some? && role.value != Str("assistant")) || m.Get("function_call").Some? || !OptionalContent(text)
         || (!stream && offer.Some? && text.None?) {
        return false;
      }
      if deltas.Some? {
        if !deltas.value.Array? || |deltas.value.items| > MAX_CALLS || (offer.None? && |deltas.value.items| > 0) {
          return false;
        }
        if |deltas.value.items| > 0 {
          var added := AddEach(offer.value, deltas.value.items, stream);
          if !added {
            return false;
          }
        }
      }
      if text.Some? && text.value.Str? {
        content := Some((if content.Some? then content.value else "") + text.value.s);
      }
      ok := true;
    }

    /** The walk over the entries of `tool_calls`. */
    method AddEach(o: Offer, deltas: seq<Value>, stream: bool) returns (ok: bool)
      modifies this`calls
      ensures ok == AddCalls(o, old(calls), deltas, stream, 0).Ok?
      ensures ok ==> calls == AddCalls(o, old(calls), deltas, stream, 0).value
    {
      hide LlmProtocol.AddCall;
      var i := 0;
      while i < |deltas|
        invariant 0 <= i <= |deltas|
        invariant AddCalls(o, old(calls), deltas, stream, 0) == AddCalls(o, calls, deltas[i..], stream, i)
      {
        ghost var before := calls;
        var added := AddCall(o, deltas[i], if stream then None else Some(i));
        assert deltas[i..][0] == deltas[i] && deltas[i..][1..] == deltas[i + 1..];
        if !added {
          return false;
        }
        i := i + 1;
      }
      ok := true;
    }

    method AddCall(o: Offer, delta: Value, position: Option<nat>) returns (ok: bool)
      modifies this`calls
      ensures ok == LlmProtocol.AddCall(o, old(calls), delta, position).Ok?
      ensures ok ==> calls == LlmProtocol.AddCall(o, old(calls), delta, position).value
    {
      hide TakeDelta, CallIndex, WithinLimits;
      var index := CallIndex(position, delta);
      if !delta.Object? || index.None? {
        return false;
      }
      var call := TakeDelta(o, if index.value in calls then calls[index.value] else EMPTY_CALL, delta);
      if call.Fail? {
        return false;
      }
      calls := calls[index.value := call.value];
      ok := CheckLimits(calls);
    }

    /** The running byte count over the table. */
    static method CheckLimits(table: map<nat, PendingCall>) returns (ok: bool)
      ensures ok <==> WithinLimits(table)
    {
      if exists i <- table :: i >= MAX_CALLS {
        return false;
      }
      var total, i := 0, 0;
      while i < MAX_CALLS
        invariant 0 <= i <= MAX_CALLS && total == TotalBytes(table, i)
        invariant forall k :: 0 <= k < i ==> BytesAt(table, k) <= MAX_ARGUMENT_BYTES
      {
        if BytesAt(table, i) > MAX_ARGUMENT_BYTES {
          return false;
        }
        total := total + BytesAt(table, i);
        i := i + 1;
      }
      ok := total <= MAX_TOTAL_ARGUMENT_BYTES;
    }

    /** One streamed payload. */
    method Chunk(data: Value) returns (ok: bool)
      modifies this
      ensures Stepped(ok, LlmProtocol.Chunk(offer, old(Now()), data))
    {
      hide LlmProtocol.Message, LlmProtocol.ReadModel, LlmProtocol.FinishReason, LlmProtocol.Choice, TerminalEcho;
      if !data.Object? {
        return false;
      }
      var named := ReadModel(data);
      if !named {
        return false;
      }
      var choice := LlmProtocol.Choice(data, true);
      if choice.Fail? {
        return false;
      }
      if choice.value.None? {
        return true;
      }
      if finish.Some? || done {
        return TerminalEcho(Now(), choice.value.value);
      }
      ok := TakeChoice(choice.value.value);
    }

    method TakeChoice(choice: Value) returns (ok: bool)
      requires finish.None? && !done
      modifies this
      ensures Stepped(ok, ChunkChoice(offer, old(Now()), choice))
    {
      hide LlmProtocol.Message, LlmProtocol.FinishReason;
      var delta := choice.Get("delta");
      if delta.None? || !delta.value.Object? {
        return false;
      }
      var taken := Message(delta.value, true);
      if !taken {
        return false;
      }
      ok := FinishReason(choice.Get("finish_reason"));
      if ok && delta.value.Get("content").Some? && delta.value.Get("content").value.Str? {
        sent := sent + delta.value.Get("content").value.s;
      }
      assert ok ==> sent + "" == sent;
    }

    method MarkDone()
      modifies this`done
      ensures done
    {
      done := true;
    }

    /** The result, with the calls finished one by one and their ids collected in a set. */
    method Result(decode: Decoder, stream: bool) returns (r: Checked<LlmResult>)
      ensures r == ResultOf(offer, decode, Now(), stream)
    {
      hide FinishCalls;
      if |calls| > 0 {
        if offer.None? || finish != Some("tool_calls") || (stream && !done) {
          return Fail(ProtocolError);
        }
        var toolCalls := FinishEach(offer.value, decode);
        if toolCalls.Fail? {
          return Fail(toolCalls.error);
        }
        return Ok(CallsResult(content, model, toolCalls.value));
      }
      if offer.Some? && finish != Some("stop") {
        return Fail(ProtocolError);
      }
      var text := if content.None? then "" else if stream then content.value else Trim(content.value);
      r := if text == "" then Fail(ProtocolError) else Ok(TextResult(text, model));
    }

    method FinishEach(o: Offer, decode: Decoder) returns (r: Checked<seq<ToolCall>>)
      ensures r == FinishCalls(o, decode, calls, |calls|)
    {
      hide FinishCall;
      var ids: set<string>, toolCalls: seq<ToolCall>, i := {}, [], 0;
      while i < |calls|
        invariant 0 <= i <= |calls| && FinishCalls(o, decode, calls, i) == Ok(toolCalls)
        invariant forall id :: id in ids <==> exists k :: 0 <= k < |toolCalls| && toolCalls[k].id == id
      {
        var call := if i in calls then FinishCall(o, decode, calls[i]) else Fail(ProtocolError);
        if call.Fail? || call.value.id in ids {
          if call.Ok? {
            var k :| 0 <= k < |toolCalls| && toolCalls[k].id == call.value.id;
          }
          assert FinishCalls(o, decode, calls, i + 1).Fail?;
          FailureLasts(o, decode, i + 1);
          assert FinishCalls(o, decode, calls, |calls|).error == ProtocolError;
          return Fail(ProtocolError);
        }
        ghost var before := toolCalls;
        ids, toolCalls, i := ids + {call.value.id}, toolCalls + [call.value], i + 1;
        assert forall k :: 0 <= k < |before| ==> toolCalls[k] == before[k];
        assert toolCalls[|before|].id == call.value.id;
      }
      r := Ok(toolCalls);
    }

    lemma {:induction false} FailureLasts(o: Offer, decode: Decoder, n: nat)
      requires n <= |calls| && FinishCalls(o, decode, calls, n).Fail?
      ensures FinishCalls(o, decode, calls, |calls|).Fail?
      decreases |calls| - n
    {
      hide FinishCall;
      if n < |calls| {
        FailureLasts(o, decode, n + 1);
      }
    }
  }
}
