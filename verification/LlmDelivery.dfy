/** From calls to characters and back: framing, splitting, assembling end where one whole message ends. */
module LlmDelivery {
  import opened Wrappers
  import opened Text
  import opened Json
  import opened LlmProtocol
  import opened LlmStream
  import opened LlmFragments

  const DONE_LINE := "data: [DONE]\n"

  /** One `data:` line per payload text. */
  function Framed(texts: seq<string>): string {
    if texts == [] then "" else Framed(texts[..|texts| - 1]) + ("data: " + texts[|texts| - 1]) + "\n"
  }

  /** A payload text that survives its line: trimmed, on one line, not the end marker, and short enough. */
  predicate Sendable(t: string) {
    t != "" && Trim(t) == t && '\n' !in t && t != "[DONE]" && ByteLength("data: " + t) <= MAX_SSE_BUFFER_BYTES
  }

  ghost predicate Encodes(decode: Decoder, texts: seq<string>, payloads: seq<Value>) {
    |texts| == |payloads| && forall k :: 0 <= k < |texts| ==>
          Sendable(texts[k]) && decode(texts[k]) == Some(payloads[k])
  }

  lemma {:induction false} TrimStartShortens(s: string)
    ensures |TrimStart(s)| <= |s|
  {
    if s != "" && IsSpace(s[0]) {
      TrimStartShortens(s[1..]);
    }
  }

  lemma {:induction false} TrimEndShortens(s: string)
    ensures |TrimEnd(s)| <= |s|
  {
    if s != "" && IsSpace(s[|s| - 1]) {
      TrimEndShortens(s[..|s| - 1]);
    }
  }

  lemma TrimmedEnds(t: string)
    requires t != "" && Trim(t) == t
    ensures !IsSpace(t[0]) && !IsSpace(t[|t| - 1])
  {
    TrimStartShortens(t[1..]);
    TrimEndShortens(TrimStart(t));
    TrimEndShortens(t[..|t| - 1]);
  }

  /** The line gives its payload back. */
  lemma LineKind(setup: Setup, t: string)
    requires Sendable(t)
    ensures Kind(setup, "data: " + t) == match setup.decode(t) {
        case Some(v) => Payload(v)
        case None => if setup.strict then Refused else Ignored
      }
  {
    assert !IsSpace('d') && IsSpace(' ');
    hide IsSpace;
    var raw := "data: " + t;
    TrimmedEnds(t);
    assert raw[0] == 'd';
    assert raw[|raw| - 1] == t[|t| - 1];
    assert Trim(raw) == raw;
    assert raw[5..] == " " + t && (" " + t)[1..] == t;
    assert "data:" <= raw;
    assert TrimStart(" " + t) == TrimStart(t) == t;
  }

  lemma {:induction false} ChunksThen(setup: Setup, payloads: seq<Value>, v: Value, st: State)
    ensures Chunks(setup.offer, st, payloads + [v]) ==
            match Chunks(setup.offer, st, payloads) {
              case Fail(e) => Fail(e)
              case Ok(st') => Chunk(setup.offer, st', v)
            }
    decreases payloads
  {
    hide Chunk;
    if payloads == [] {
      assert [] + [v] == [v] && [v][1..] == [];
      if Chunk(setup.offer, st, v).Fail? {
        assert Chunk(setup.offer, st, v).error == ProtocolError;
      }
    } else {
      assert (payloads + [v])[1..] == payloads[1..] + [v];
      if Chunk(setup.offer, st, payloads[0]).Ok? {
        ChunksThen(setup, payloads[1..], v, Chunk(setup.offer, st, payloads[0]).value);
      }
    }
  }

  /** A newline-free line appended to text that ended in one. */
  lemma {:induction false} SplitLine(text: string, raw: string)
    requires var a := Split(text); a[|a| - 1] == ""
    requires '\n' !in raw
    ensures var a := Split(text); Split(text + raw) == a[..|a| - 1] + [raw]
  {
    var a := Split(text);
    if raw == "" {
      assert text + raw == text && a == a[..|a| - 1] + [""];
    } else {
      var n := |raw| - 1;
      assert (text + raw)[..|text + raw| - 1] == text + raw[..n];
      SplitLine(text, raw[..n]);
      assert raw == raw[..n] + [raw[n]] && raw[n] != '\n';
    }
  }

  lemma SplitFramed(text: string, raw: string)
    requires var a := Split(text); a[|a| - 1] == ""
    requires '\n' !in raw
    ensures var a := Split(text); Split(text + raw + "\n") == a[..|a| - 1] + [raw] + [""]
  {
    SplitLine(text, raw);
    assert (text + raw + "\n")[..|text + raw|] == text + raw;
  }

  /** Where the terminated lines of a text lead. */
  function Standing(setup: Setup, text: string): Progress {
    var a := Split(text);
    After(setup, a[..|a| - 1])
  }

  predicate Closed(text: string) {
    var a := Split(text);
    a[|a| - 1] == ""
  }

  lemma LineTaken(setup: Setup, text: string, raw: string)
    requires Closed(text) && '\n' !in raw && ByteLength(raw) <= MAX_SSE_BUFFER_BYTES
    ensures Closed(text + raw + "\n")
    ensures Standing(setup, text + raw + "\n") == Take(setup, Standing(setup, text), raw)
  {
    TakenOnlyGoing(setup, Standing(setup, text), raw);
    hide Split, Take, ByteLength;
    SplitFramed(text, raw);
    var before, a := Split(text), Split(text + raw + "\n");
    assert a[..|a| - 1] == before[..|before| - 1] + [raw];
    assert a[..|a| - 1][..|a| - 2] == before[..|before| - 1];
  }

  lemma TakenOnlyGoing(setup: Setup, p: Progress, raw: string)
    ensures !p.phase.Going? ==> Take(setup, p, raw) == p
  {
  }

  /** A comment, a blank line or any other line without data leaves the stream where it stands. */
  lemma NoiseIgnored(setup: Setup, text: string, raw: string)
    requires Closed(text) && '\n' !in raw && ByteLength(raw) <= MAX_SSE_BUFFER_BYTES && !("data:" <= Trim(raw))
    ensures Closed(text + raw + "\n") && Standing(setup, text + raw + "\n") == Standing(setup, text)
  {
    LineTaken(setup, text, raw);
    NoData(setup, Standing(setup, text), raw);
  }

  lemma NoData(setup: Setup, p: Progress, raw: string)
    requires !("data:" <= Trim(raw))
    ensures Take(setup, p, raw) == p
  {
    hide Trim;
  }

  lemma LineFits(t: string)
    requires Sendable(t)
    ensures '\n' !in "data: " + t && ByteLength("data: " + t) <= MAX_SSE_BUFFER_BYTES
  {
    assert '\n' !in "data: ";
  }

  /** The pump after the framed payloads stands where the parser fed with them stands. */
  lemma {:induction false} FramedReached(setup: Setup, texts: seq<string>, payloads: seq<Value>)
    requires Encodes(setup.decode, texts, payloads)
    ensures Closed(Framed(texts))
    ensures match Chunks(setup.offer, setup.start, payloads)
            case Ok(st) => Standing(setup, Framed(texts)) == Progress(payloads, Going(st))
            case Fail(_) => Standing(setup, Framed(texts)).phase.Broken?
  {
    assert Chunks(setup.offer, setup.start, []) == Ok(setup.start);
    assert Closed("") && Standing(setup, "") == Progress([], Going(setup.start));
    hide Kind, Chunk, Sendable, Closed, Standing, ByteLength, Take, Chunks;
    if texts != [] {
      var n := |texts| - 1;
      FramedReached(setup, texts[..n], payloads[..n]);
      assert payloads == payloads[..n] + [payloads[n]];
      ChunksThen(setup, payloads[..n], payloads[n], setup.start);
      LineFits(texts[n]);
      LineTaken(setup, Framed(texts[..n]), "data: " + texts[n]);
      LineKind(setup, texts[n]);
      TakePayload(setup, Standing(setup, Framed(texts[..n])), "data: " + texts[n], payloads[n]);
    }
  }

  lemma TakePayload(setup: Setup, p: Progress, raw: string, v: Value)
    requires Kind(setup, raw) == Payload(v)
    ensures p.phase.Broken? ==> Take(setup, p, raw) == p
    ensures p.phase.Going? ==>
              match Chunk(setup.offer, p.phase.st, v)
              case Ok(st) => Take(setup, p, raw) == Progress(p.given + [v], Going(st))
              case Fail(_) => Take(setup, p, raw).phase.Broken?
  {
    hide Kind, Chunk;
  }

  /** Framed payloads and the end marker come out as the assembled stream, whatever is sent after. */
  lemma DeliveredIsStreamed(setup: Setup, model: string, texts: seq<string>, payloads: seq<Value>, junk: string,
                            tail: string)
    requires Encodes(setup.decode, texts, payloads) && setup.start == Start(model)
    ensures Outcome(setup, Reached(setup, Framed(texts) + DONE_LINE + junk, tail)) ==
            Streamed(setup.offer, setup.decode, model, payloads)
  {
    hide Split, Chunks, ResultOf, Kind, Encodes, After, Closed, Framed, Reached;
    FramedReached(setup, texts, payloads);
    var done := "data: [DONE]";
    var text := Framed(texts);
    assert text + DONE_LINE == text + done + "\n" by { assert DONE_LINE == done + "\n"; }
    assert '\n' !in done;
    DoneLineKind(setup);
    LineTaken(setup, text, done);
    EndedEarly(setup, text + DONE_LINE, junk, tail);
    if Chunks(setup.offer, Start(model), payloads).Fail? {
      assert Chunks(setup.offer, Start(model), payloads).error == ProtocolError;
    }
  }

  lemma DoneLineKind(setup: Setup)
    ensures Kind(setup, "data: [DONE]") == DoneMark && ByteLength("data: [DONE]") <= MAX_SSE_BUFFER_BYTES
  {
    var raw := "data: [DONE]";
    assert Trim(raw) == raw;
    assert raw[5..] == " [DONE]" && " [DONE]"[1..] == "[DONE]";
    assert Trim(" [DONE]") == "[DONE]";
    assert "data:" <= raw;
    BytesBound(raw);
  }

  lemma {:induction false} BytesBound(s: string)
    ensures ByteLength(s) <= 4 * |s|
  {
    if s != "" {
      BytesBound(s[..|s| - 1]);
    }
  }

  /**
   * End to end: calls cut into pieces, interleaved, chunked, written as lines and cut again into
   * reads of any size parse to what the one whole message parses to.
   */
  lemma DeliveredIsWhole(setup: Setup, offer: Offer, model: string, calls: seq<WholeCall>, content: Option<string>,
                         cs: seq<StreamChunk>, texts: seq<string>, parts: seq<string>, junk: string, tail: string)
    requires setup.offer == Some(offer) && setup.start == Start(model)
    requires Fits(calls) && Offered(offer, calls) && calls != [] && cs != []
    requires Assembles(AllFrags(cs), calls) && Joined(None, cs) == content
    requires forall k :: 0 <= k < |cs| ==> |cs[k].frags| <= MAX_CALLS
    requires Encodes(setup.decode, texts, Payloads(cs))
    requires Concat(parts) == Framed(texts) + DONE_LINE + junk
    ensures Outcome(setup, Reached(setup, Concat(parts), tail)) ==
            Whole(setup.offer, setup.decode, model, WholeValue(calls, content))
  {
    hide Fits, Offered, Assembles, Encodes, Reached, Payloads, Framed;
    DeliveredIsStreamed(setup, model, texts, Payloads(cs), junk, tail);
    FragmentationIndependence(offer, setup.decode, model, calls, content, cs);
  }
}
