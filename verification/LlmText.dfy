/** Text answers: what a whole message says is the reply, and any cut of it into streamed deltas says the same. */
module LlmText {
  import opened Wrappers
  import opened Text
  import opened Json
  import opened LlmProtocol
  import opened LlmStream
  import opened LlmDelivery

  /** A name the protocol accepts: not blank, and at most 128 UTF-16 units long. */
  predicate Nameable(name: Option<string>) {
    name.Some? ==> Trim(name.value) != "" && UnitLength(name.value) <= 128
  }

  /** A turn that was offered tools ends with `stop`; one that was not ends anyhow but with a call. */
  predicate Stops(offer: Option<Offer>, finish: Option<string>) {
    if offer.Some? then finish == Some("stop") else finish != Some("tool_calls")
  }

  function Named(name: Option<string>): map<string, Value> {
    if name.Some? then map["model" := Str(name.value)] else map[]
  }

  function Finished(finish: Option<string>): map<string, Value> {
    if finish.Some? then map["finish_reason" := Str(finish.value)] else map[]
  }

  function Spoken(text: Option<string>): Value {
    if text.Some? then Str(text.value) else Null
  }

  // ---------- A whole message ----------

  /** A whole response with a text and no calls. */
  function TextValue(text: Option<string>, name: Option<string>, finish: Option<string>): Value {
    var message := Object(map["role" := Str("assistant"), "content" := Spoken(text)]);
    Object(map["choices" := Array([Object(map["message" := message] + Finished(finish))])] + Named(name))
  }

  function Said(text: Option<string>): string {
    if text.Some? then text.value else ""
  }

  lemma TextReads(text: Option<string>, name: Option<string>, finish: Option<string>)
    ensures var data := TextValue(text, name, finish);
            && data.Object? && data.Get("error").None?
            && data.Get("model") == (if name.Some? then Some(Str(name.value)) else None)
            && Choice(data, false).Ok? && Choice(data, false).value.Some?
            && var choice := Choice(data, false).value.value;
               && choice.Get("finish_reason") == (if finish.Some? then Some(Str(finish.value)) else None)
               && choice.Get("message").Some? && choice.Get("message").value.Object?
               && var message := choice.Get("message").value;
                  && message.Get("role") == Some(Str("assistant")) && message.Get("function_call").None?
                  && message.Get("content") == Some(Spoken(text)) && message.Get("tool_calls").None?
  {
  }

  /** A message without calls adds its text and nothing else. */
  lemma TextTaken(offer: Option<Offer>, st: State, m: Value, text: Option<Value>, stream: bool)
    requires m.Get("role").Some? ==> m.Get("role").value == Str("assistant")
    requires m.Get("function_call").None? && m.Get("tool_calls").None? && m.Get("content") == text
    requires OptionalContent(text) && (stream || text.Some?)
    ensures Message(offer, st, m, stream) == Ok(st.(content := TakeContent(st.content, text)))
  {
    hide TakeContent;
  }

  lemma FinishTaken(offer: Option<Offer>, st: State, finish: Option<string>)
    requires st.finish.None?
    ensures finish.None? || Stops(offer, finish) ==>
              FinishReason(offer, st, if finish.Some? then Some(Str(finish.value)) else None) ==
              Ok(st.(finish := finish))
    ensures !Stops(offer, finish) ==>
              var r := FinishReason(offer, st, if finish.Some? then Some(Str(finish.value)) else None);
              r == Fail(ProtocolError) || (r == Ok(st.(finish := finish)) && offer.Some?)
  {
  }

  lemma NameTaken(st: State, data: Value, name: Option<string>)
    requires data.Get("error").None? && data.Get("model") == (if name.Some? then Some(Str(name.value)) else None)
    ensures ReadModel(st, data) ==
            if Nameable(name) then Ok(st.(model := if name.Some? then name.value else st.model))
            else Fail(ProtocolError)
  {
    hide Trim, UnitLength;
  }

  /** What is made of a finished text. */
  lemma TextResulting(offer: Option<Offer>, decode: Decoder, st: State, stream: bool)
    requires st.calls == map[]
    ensures ResultOf(offer, decode, st, stream) ==
            var t := if stream then Said(st.content) else Trim(Said(st.content));
            if (offer.Some? && st.finish != Some("stop")) || t == "" then Fail(ProtocolError)
            else Ok(TextResult(t, st.model))
  {
    assert Trim("") == "";
    hide Trim;
  }

  /** The reply is the trimmed text under the model's own name for itself; a blank one is refused. */
  lemma WholeText(offer: Option<Offer>, decode: Decoder, model: string, text: Option<string>, name: Option<string>,
                  finish: Option<string>)
    ensures Whole(offer, decode, model, TextValue(text, name, finish)) ==
            if Nameable(name) && Stops(offer, finish) && Trim(Said(text)) != ""
            then Ok(TextResult(Trim(Said(text)), if name.Some? then name.value else model))
            else Fail(ProtocolError)
  {
    hide TextValue, Choice, Message, FinishReason, ReadModel, ResultOf, Nameable, Trim;
    var data := TextValue(text, name, finish);
    TextReads(text, name, finish);
    NameTaken(Start(model), data, name);
    var choice := Choice(data, false).value.value;
    if Nameable(name) {
      var st := ReadModel(Start(model), data).value;
      TextTaken(offer, st, choice.Get("message").value, Some(Spoken(text)), false);
      var st1 := Message(offer, st, choice.Get("message").value, false).value;
      FinishTaken(offer, st1, finish);
      TextResulting(offer, decode, st1.(finish := finish), false);
      assert "" + Said(text) == Said(text);
      assert Said(st1.content) == Said(text);
      assert !Stops(offer, finish) && offer.Some? ==> finish != Some("stop");
      assert Response(offer, Start(model), data) ==
             FinishReason(offer, st1, if finish.Some? then Some(Str(finish.value)) else None);
    }
  }

  // ---------- A stream ----------

  /** One event of a text stream; `role` repeats who speaks, a usage event carries no choice. */
  datatype Piece =
    | Words(role: bool, text: Option<string>, name: Option<string>)
    | Usage(name: Option<string>)

  function DeltaOf(role: bool, text: Option<string>): Value {
    Object((if role then map["role" := Str("assistant")] else map[])
           + (if text.Some? then map["content" := Str(text.value)] else map[]))
  }

  function WordsValue(role: bool, text: Option<string>, name: Option<string>, finish: Option<string>): Value {
    Object(map["choices" := Array([Object(map["delta" := DeltaOf(role, text)] + Finished(finish))])] + Named(name))
  }

  function PieceValue(p: Piece): Value {
    match p
    case Words(role, text, name) => WordsValue(role, text, name, None)
    case Usage(name) => Object(map["choices" := Array([]), "usage" := Object(map[])] + Named(name))
  }

  function PieceValues(ps: seq<Piece>): (vs: seq<Value>)
    ensures |vs| == |ps|
  {
    if ps == [] then [] else PieceValues(ps[..|ps| - 1]) + [PieceValue(ps[|ps| - 1])]
  }

  /** The text of the pieces, in order. */
  function Uttered(ps: seq<Piece>): string {
    if ps == [] then ""
    else
      var p := ps[|ps| - 1];
      Uttered(ps[..|ps| - 1]) + (if p.Words? then Said(p.text) else "")
  }

  /** The name given last, if any. */
  function LastName(model: string, ps: seq<Piece>): string {
    if ps == [] then model
    else
      var p := ps[|ps| - 1];
      if p.name.Some? then p.name.value else LastName(model, ps[..|ps| - 1])
  }

  predicate AllNameable(ps: seq<Piece>) {
    forall k :: 0 <= k < |ps| ==> Nameable(ps[k].name)
  }

  /** The pieces, the one that carries the finish, and whatever usage is reported after it. */
  function TextStream(ps: seq<Piece>, last: Piece, finish: Option<string>, after: seq<Piece>): seq<Value>
    requires last.Words?
  {
    PieceValues(ps) + [WordsValue(last.role, last.text, last.name, finish)] + PieceValues(after)
  }

  lemma WordsRead(role: bool, text: Option<string>, name: Option<string>, finish: Option<string>)
    ensures var data := WordsValue(role, text, name, finish);
            && data.Object? && data.Get("error").None?
            && data.Get("model") == (if name.Some? then Some(Str(name.value)) else None)
            && Choice(data, true).Ok? && Choice(data, true).value.Some?
            && var choice := Choice(data, true).value.value;
               && choice.Get("finish_reason") == (if finish.Some? then Some(Str(finish.value)) else None)
               && choice.Get("delta") == Some(DeltaOf(role, text))
  {
    hide DeltaOf;
  }

  lemma DeltaReads(role: bool, text: Option<string>)
    ensures var delta := DeltaOf(role, text);
            && delta.Object? && delta.Get("function_call").None? && delta.Get("tool_calls").None?
            && delta.Get("role") == (if role then Some(Str("assistant")) else None)
            && delta.Get("content") == (if text.Some? then Some(Str(text.value)) else None)
  {
  }

  /** What has been said so far, and under which name. */
  ghost predicate Speaking(st: State, text: string, model: string) {
    st.model == model && st.calls == map[] && Said(st.content) == text && st.sent == text && !st.done
  }

  lemma WordsTaken(offer: Option<Offer>, st: State, text: string, model: string, role: bool, more: Option<string>,
                   name: Option<string>, finish: Option<string>)
    requires Speaking(st, text, model) && st.finish.None? && Nameable(name)
    ensures var r := Chunk(offer, st, WordsValue(role, more, name, finish));
            finish.None? || Stops(offer, finish) ==>
              && r.Ok? && r.value.finish == finish
              && Speaking(r.value, text + Said(more), if name.Some? then name.value else model)
    ensures var r := Chunk(offer, st, WordsValue(role, more, name, finish));
            !Stops(offer, finish) && r.Ok? ==> offer.Some? && r.value.finish == finish && r.value.calls == map[]
  {
    hide WordsValue, DeltaOf, Choice, Message, FinishReason, ReadModel, Nameable;
    var data := WordsValue(role, more, name, finish);
    WordsRead(role, more, name, finish);
    DeltaReads(role, more);
    NameTaken(st, data, name);
    var st1 := ReadModel(st, data).value;
    var given := if more.Some? then Some(Str(more.value)) else None;
    TextTaken(offer, st1, DeltaOf(role, more), given, true);
    FinishTaken(offer, st1.(content := TakeContent(st.content, given)), finish);
    assert text + "" == text && "" + Said(more) == Said(more);
  }

  lemma UsageTaken(offer: Option<Offer>, st: State, name: Option<string>)
    requires Nameable(name)
    ensures Chunk(offer, st, PieceValue(Usage(name))) == Ok(st.(model := if name.Some? then name.value else st.model))
  {
    hide Nameable, ReadModel;
    var data := PieceValue(Usage(name));
    NameTaken(st, data, name);
    assert data.Get("choices") == Some(Array([])) && data.Get("usage") == Some(Object(map[]));
  }

  lemma {:induction false} ChunksJoin(offer: Option<Offer>, st: State, a: seq<Value>, b: seq<Value>)
    ensures Chunks(offer, st, a + b) ==
            match Chunks(offer, st, a) {
              case Fail(e) => Fail(e)
              case Ok(st') => Chunks(offer, st', b)
            }
    decreases a
  {
    hide Chunk;
    if a == [] {
      assert [] + b == b;
    } else {
      assert (a + b)[1..] == a[1..] + b;
      if Chunk(offer, st, a[0]).Ok? {
        ChunksJoin(offer, Chunk(offer, st, a[0]).value, a[1..], b);
      }
    }
  }

  lemma ChunksOne(offer: Option<Offer>, st: State, v: Value)
    ensures Chunks(offer, st, [v]) == Chunk(offer, st, v)
  {
    hide Chunk;
    assert [v][1..] == [];
    if Chunk(offer, st, v).Fail? {
      assert Chunk(offer, st, v).error == ProtocolError;
    }
  }

  /** Before the finish, every piece adds its text. */
  lemma {:induction false} PiecesTaken(offer: Option<Offer>, model: string, ps: seq<Piece>)
    requires AllNameable(ps)
    ensures var r := Chunks(offer, Start(model), PieceValues(ps));
            r.Ok? && Speaking(r.value, Uttered(ps), LastName(model, ps)) && r.value.finish.None?
  {
    hide Chunk, PieceValue, Nameable, Chunks;
    if ps == [] {
      Nothing(offer, model);
    } else {
      var n := |ps| - 1;
      PiecesTaken(offer, model, ps[..n]);
      var st := Chunks(offer, Start(model), PieceValues(ps[..n])).value;
      ChunksJoin(offer, Start(model), PieceValues(ps[..n]), [PieceValue(ps[n])]);
      ChunksOne(offer, st, PieceValue(ps[n]));
      PieceTaken(offer, st, Uttered(ps[..n]), LastName(model, ps[..n]), ps[n]);
    }
  }

  lemma Nothing(offer: Option<Offer>, model: string)
    ensures Chunks(offer, Start(model), []) == Ok(Start(model)) && Speaking(Start(model), "", model)
  {
  }

  lemma PieceTaken(offer: Option<Offer>, st: State, text: string, model: string, p: Piece)
    requires Speaking(st, text, model) && st.finish.None? && Nameable(p.name)
    ensures var r := Chunk(offer, st, PieceValue(p));
            && r.Ok? && r.value.finish.None?
            && Speaking(r.value, text + (if p.Words? then Said(p.text) else ""),
                        if p.name.Some? then p.name.value else model)
  {
    hide Chunk, Nameable, WordsValue;
    if p.Words? {
      WordsTaken(offer, st, text, model, p.role, p.text, p.name, None);
    } else {
      UsageTaken(offer, st, p.name);
      assert text + "" == text;
    }
  }

  /** After the finish, usage may still change the name, and nothing else. */
  lemma {:induction false} UsageAfter(offer: Option<Offer>, st: State, after: seq<Piece>)
    requires AllNameable(after) && forall k :: 0 <= k < |after| ==> after[k].Usage?
    ensures Chunks(offer, st, PieceValues(after)) == Ok(st.(model := LastName(st.model, after)))
  {
    hide Chunk, PieceValue, Nameable, Chunks;
    if after == [] {
      NoMore(offer, st);
    } else {
      var n := |after| - 1;
      UsageAfter(offer, st, after[..n]);
      var st1 := st.(model := LastName(st.model, after[..n]));
      ChunksJoin(offer, st, PieceValues(after[..n]), [PieceValue(after[n])]);
      ChunksOne(offer, st1, PieceValue(after[n]));
      UsageTaken(offer, st1, after[n].name);
    }
  }

  lemma NoMore(offer: Option<Offer>, st: State)
    ensures Chunks(offer, st, []) == Ok(st)
  {
  }

  lemma NameableParts(ps: seq<Piece>, last: Piece, after: seq<Piece>)
    requires AllNameable(ps + [last] + after)
    ensures AllNameable(ps) && Nameable(last.name) && AllNameable(after)
  {
    hide Nameable;
    var all := ps + [last] + after;
    assert forall k :: 0 <= k < |ps| ==> all[k] == ps[k];
    assert forall k :: 0 <= k < |after| ==> all[|ps| + 1 + k] == after[k];
    assert all[|ps|] == last;
  }

  /** The state a finish leaves: all said, or not to be answered. */
  ghost predicate Over(offer: Option<Offer>, st: State, text: string, model: string, finish: Option<string>) {
    && st.calls == map[] && st.finish == finish && st.model == model
    && (if Stops(offer, finish) then Said(st.content) == text && st.sent == text && !st.done
        else offer.Some? && finish != Some("stop"))
  }

  lemma FinishReached(offer: Option<Offer>, model: string, ps: seq<Piece>, last: Piece, finish: Option<string>)
    requires last.Words? && AllNameable(ps) && Nameable(last.name)
    ensures var r := Chunks(offer, Start(model),
                            PieceValues(ps) + [WordsValue(last.role, last.text, last.name, finish)]);
            && (Stops(offer, finish) ==> r.Ok?)
            && (r.Ok? ==> Over(offer, r.value, Uttered(ps + [last]), r.value.model, finish))
            && (Stops(offer, finish) ==> r.value.model == LastName(model, ps + [last]))
  {
    hide Chunk, Chunks, WordsValue, Nameable, AllNameable;
    PiecesTaken(offer, model, ps);
    var st := Chunks(offer, Start(model), PieceValues(ps)).value;
    var v := WordsValue(last.role, last.text, last.name, finish);
    ChunksJoin(offer, Start(model), PieceValues(ps), [v]);
    ChunksOne(offer, st, v);
    WordsTaken(offer, st, Uttered(ps), LastName(model, ps), last.role, last.text, last.name, finish);
    assert (ps + [last])[..|ps|] == ps;
    assert !Stops(offer, finish) && offer.Some? ==> finish != Some("stop");
  }

  lemma UsageReached(offer: Option<Offer>, model: string, ps: seq<Piece>, last: Piece, finish: Option<string>,
                     after: seq<Piece>)
    requires last.Words? && AllNameable(ps + [last] + after) && forall k :: 0 <= k < |after| ==> after[k].Usage?
    ensures var r := Chunks(offer, Start(model), TextStream(ps, last, finish, after));
            && (Stops(offer, finish) ==> r.Ok? && r.value.model == LastName(model, ps + [last] + after))
            && (r.Ok? ==> Over(offer, r.value, Uttered(ps + [last]), r.value.model, finish))
  {
    hide Chunk, Chunks, WordsValue, Nameable, AllNameable, Uttered, Stops, PieceValues;
    NameableParts(ps, last, after);
    FinishReached(offer, model, ps, last, finish);
    var first := PieceValues(ps) + [WordsValue(last.role, last.text, last.name, finish)];
    ChunksJoin(offer, Start(model), first, PieceValues(after));
    if Chunks(offer, Start(model), first).Ok? {
      var st1 := Chunks(offer, Start(model), first).value;
      UsageAfter(offer, st1, after);
      NamesJoin(model, ps + [last], after);
    }
  }

  /**
   * However a text is cut into events, the reply is the text, untrimmed, under the name given last, and every
   * character of it went to the token sink; an empty one is refused, and so is one that does not stop.
   */
  lemma TextStreamed(offer: Option<Offer>, decode: Decoder, model: string, ps: seq<Piece>, last: Piece,
                     finish: Option<string>, after: seq<Piece>)
    requires last.Words? && AllNameable(ps + [last] + after) && forall k :: 0 <= k < |after| ==> after[k].Usage?
    ensures var text := Uttered(ps + [last]);
            && Streamed(offer, decode, model, TextStream(ps, last, finish, after)) ==
               (if Stops(offer, finish) && text != "" then Ok(TextResult(text, LastName(model, ps + [last] + after)))
                else Fail(ProtocolError))
            && (Stops(offer, finish) ==>
                  Chunks(offer, Start(model), TextStream(ps, last, finish, after)).Ok?
                  && Chunks(offer, Start(model), TextStream(ps, last, finish, after)).value.sent == text)
  {
    hide Chunks, ResultOf, AllNameable, TextStream, Uttered, LastName;
    UsageReached(offer, model, ps, last, finish, after);
    var r := Chunks(offer, Start(model), TextStream(ps, last, finish, after));
    if r.Ok? {
      TextResulting(offer, decode, r.value.(done := true), true);
    } else {
      assert r.error == ProtocolError;
    }
  }

  lemma {:induction false} NamesJoin(model: string, a: seq<Piece>, b: seq<Piece>)
    ensures LastName(model, a + b) == LastName(LastName(model, a), b)
  {
    if b == [] {
      assert a + b == a;
    } else {
      assert (a + b)[..|a + b| - 1] == a + b[..|b| - 1];
      NamesJoin(model, a, b[..|b| - 1]);
    }
  }

  /** And so it is when the events are written as lines and cut again into reads of any size. */
  lemma DeliveredText(setup: Setup, model: string, ps: seq<Piece>, last: Piece, finish: Option<string>,
                      after: seq<Piece>, texts: seq<string>, parts: seq<string>, junk: string, tail: string)
    requires last.Words? && AllNameable(ps + [last] + after) && forall k :: 0 <= k < |after| ==> after[k].Usage?
    requires setup.start == Start(model) && Encodes(setup.decode, texts, TextStream(ps, last, finish, after))
    requires Concat(parts) == Framed(texts) + DONE_LINE + junk
    ensures Outcome(setup, Reached(setup, Concat(parts), tail)) ==
            if Stops(setup.offer, finish) && Uttered(ps + [last]) != ""
            then Ok(TextResult(Uttered(ps + [last]), LastName(model, ps + [last] + after)))
            else Fail(ProtocolError)
  {
    hide TextStream, AllNameable, Encodes, Framed, Reached, Outcome, Streamed, Uttered, LastName;
    DeliveredIsStreamed(setup, model, texts, TextStream(ps, last, finish, after), junk, tail);
    TextStreamed(setup.offer, setup.decode, model, ps, last, finish, after);
  }
}
