/** The line pump of a streamed completion: characters to lines, lines to parser calls. */
module LlmStream {
  import opened Wrappers
  import opened Text
  import opened Json
  import opened LlmProtocol
  import opened LlmParsers

  const MAX_SSE_BUFFER_BYTES: nat := 128 * 1024

  /** What one stream runs with; `strict` streams refuse payloads that are not JSON. */
  datatype Setup = Setup(offer: Option<Offer>, decode: Decoder, strict: bool, start: State)

  datatype Phase = Going(st: State) | Ended(st: State) | Broken

  /** The payloads handed to the parser so far, the refused one included, and where that left it. */
  datatype Progress = Progress(given: seq<Value>, phase: Phase)

  datatype LineKind = Ignored | DoneMark | Payload(value: Value) | Refused

  // ---------- Reference: split the whole text, then take the lines in order ----------

  /** The text cut at every newline; the last piece is what no newline ends. */
  function Split(text: string): (lines: seq<string>)
    ensures lines != []
  {
    if text == "" then [""]
    else
      var lines, c := Split(text[..|text| - 1]), text[|text| - 1];
      if c == '\n' then lines + [""] else lines[..|lines| - 1] + [lines[|lines| - 1] + [c]]
  }

  function Join(lines: seq<string>): string
    requires lines != []
  {
    if |lines| == 1 then lines[0] else Join(lines[..|lines| - 1]) + "\n" + lines[|lines| - 1]
  }

  /** The pieces are newline-free and put together give the text. */
  lemma {:induction false} SplitJoins(text: string)
    ensures Join(Split(text)) == text
    ensures forall k :: 0 <= k < |Split(text)| ==> '\n' !in Split(text)[k]
  {
    if text != "" {
      var n := |text| - 1;
      SplitJoins(text[..n]);
      var lines := Split(text[..n]);
      assert text == text[..n] + [text[n]];
      if text[n] == '\n' {
        assert (lines + [""])[..|lines|] == lines;
      } else {
        assert Split(text)[..|lines| - 1] == lines[..|lines| - 1];
      }
    }
  }

  function Kind(setup: Setup, raw: string): LineKind {
    var trimmed := Trim(raw);
    if !("data:" <= trimmed) then Ignored
    else
      var payload := Trim(trimmed[5..]);
      if payload == "[DONE]" then DoneMark
      else
        match setup.decode(payload)
        case Some(v) => Payload(v)
        case None => if setup.strict then Refused else Ignored
  }

  function Take(setup: Setup, p: Progress, raw: string): Progress {
    if !p.phase.Going? then p
    else
      match Kind(setup, raw)
      case Ignored => p
      case DoneMark => p.(phase := Ended(p.phase.st.(done := true)))
      case Refused => p.(phase := Broken)
      case Payload(v) =>
        match Chunk(setup.offer, p.phase.st, v)
        case Ok(st) => Progress(p.given + [v], Going(st))
        case Fail(_) => Progress(p.given + [v], Broken)
  }

  /** After the terminated lines: each must fit the buffer, and nothing follows the end marker or a failure. */
  function After(setup: Setup, lines: seq<string>): Progress {
    if lines == [] then Progress([], Going(setup.start))
    else
      var p, raw := After(setup, lines[..|lines| - 1]), lines[|lines| - 1];
      if p.phase.Going? && ByteLength(raw) > MAX_SSE_BUFFER_BYTES then p.(phase := Broken) else Take(setup, p, raw)
  }

  /** Then the unterminated rest, together with what closing the decoder still gives out. */
  function AtEnd(setup: Setup, p: Progress, rest: string, tail: string): Progress {
    if !p.phase.Going? then p
    else if ByteLength(rest) > MAX_SSE_BUFFER_BYTES then p.(phase := Broken)
    else if rest + tail == "" then p
    else Take(setup, p, rest + tail)
  }

  function Reached(setup: Setup, text: string, tail: string): Progress {
    var lines := Split(text);
    AtEnd(setup, After(setup, lines[..|lines| - 1]), lines[|lines| - 1], tail)
  }

  function Outcome(setup: Setup, p: Progress): Checked<LlmResult> {
    if p.phase.Broken? then Fail(ProtocolError) else ResultOf(setup.offer, setup.decode, p.phase.st, true)
  }

  // ---------- Why stopping early is right ----------

  /** Reading on changes no terminated line and only lengthens the open one. */
  lemma {:induction false} SplitGrows(text: string, more: string)
    ensures var a, b := Split(text), Split(text + more);
            && |a| <= |b| && a[..|a| - 1] == b[..|a| - 1] && a[|a| - 1] <= b[|a| - 1]
  {
    if more == "" {
      assert text + more == text;
    } else {
      var n := |more| - 1;
      assert (text + more)[..|text + more| - 1] == text + more[..n];
      SplitGrows(text, more[..n]);
    }
  }

  /** Once not going, always where it was. */
  lemma {:induction false} StopsForGood(setup: Setup, lines: seq<string>, n: nat)
    requires n <= |lines| && !After(setup, lines[..n]).phase.Going?
    ensures After(setup, lines) == After(setup, lines[..n])
    decreases |lines|
  {
    if n == |lines| {
      assert lines[..n] == lines;
    } else {
      assert lines[..|lines| - 1][..n] == lines[..n];
      StopsForGood(setup, lines[..|lines| - 1], n);
    }
  }

  lemma EndedEarly(setup: Setup, text: string, more: string, tail: string)
    requires var a := Split(text); !After(setup, a[..|a| - 1]).phase.Going?
    ensures var a := Split(text); Reached(setup, text + more, tail) == After(setup, a[..|a| - 1])
  {
    hide Split, After;
    SplitGrows(text, more);
    var a, b := Split(text), Split(text + more);
    var lines := b[..|b| - 1];
    assert lines[..|a| - 1] == a[..|a| - 1];
    StopsForGood(setup, lines, |a| - 1);
  }

  lemma LongerPrefix(s: string, t: string)
    requires s <= t
    ensures ByteLength(s) <= ByteLength(t)
  {
    assert t == s + t[|s|..];
    ByteLengthAppend(s, t[|s|..]);
  }

  /** An open line already too long breaks the stream, whatever follows. */
  lemma Overlong(setup: Setup, text: string, more: string, tail: string)
    requires var a := Split(text);
             After(setup, a[..|a| - 1]).phase.Going? && ByteLength(a[|a| - 1]) > MAX_SSE_BUFFER_BYTES
    ensures var a := Split(text);
            Reached(setup, text + more, tail) == After(setup, a[..|a| - 1]).(phase := Broken)
  {
    hide Split, ByteLength, Take;
    SplitGrows(text, more);
    var a, b := Split(text), Split(text + more);
    LongerPrefix(a[|a| - 1], b[|a| - 1]);
    var lines, n := b[..|b| - 1], |a| - 1;
    if n < |lines| {
      assert lines[..n + 1][..n] == a[..n] && lines[..n + 1][n] == b[n];
      StopsForGood(setup, lines, n + 1);
    } else {
      assert lines == a[..n];
    }
  }

  // ---------- The pump ----------

  datatype LineEnd = Next | Stop | Throw

  /** One line handed to the parser. */
  method Line(setup: Setup, parser: CompletionParser, raw: string, ghost p: Progress)
    returns (end: LineEnd, ghost q: Progress)
    requires parser.offer == setup.offer && p.phase == Going(parser.Now())
    modifies parser
    ensures q == Take(setup, p, raw)
    ensures match q.phase
            case Going(st) => end == Next && parser.Now() == st
            case Ended(st) => end == Stop && parser.Now() == st
            case Broken => end == Throw
  {
    hide Kind, LlmProtocol.Chunk;
    q := Take(setup, p, raw);
    match Kind(setup, raw)
    case Ignored => end := Next;
    case Refused => end := Throw;
    case DoneMark =>
      parser.MarkDone();
      end := Stop;
    case Payload(v) =>
      var ok := parser.Chunk(v);
      end := if ok then Next else Throw;
  }

  /** What the loop holds after `consumed`. */
  ghost predicate Holding(setup: Setup, consumed: string, buffer: string, bufferBytes: nat, p: Progress) {
    var lines := Split(consumed);
    && p == After(setup, lines[..|lines| - 1]) && p.phase.Going?
    && buffer == lines[|lines| - 1] && bufferBytes == ByteLength(buffer) && bufferBytes <= MAX_SSE_BUFFER_BYTES
  }

  lemma NewLine(setup: Setup, consumed: string, buffer: string, bufferBytes: nat, p: Progress)
    requires Holding(setup, consumed, buffer, bufferBytes, p)
    ensures var lines := Split(consumed + "\n");
            && After(setup, lines[..|lines| - 1]) == Take(setup, p, buffer) && lines[|lines| - 1] == ""
  {
    hide Take;
    var lines := Split(consumed);
    assert (consumed + "\n")[..|consumed|] == consumed;
    assert Split(consumed + "\n")[..|lines|] == lines;
  }

  lemma NewCharacter(setup: Setup, consumed: string, buffer: string, bufferBytes: nat, p: Progress, c: char)
    requires Holding(setup, consumed, buffer, bufferBytes, p) && c != '\n'
    ensures var lines := Split(consumed + [c]);
            && After(setup, lines[..|lines| - 1]) == p && lines[|lines| - 1] == buffer + [c]
            && ByteLength(buffer + [c]) == bufferBytes + CharBytes(c)
  {
    hide Take, After;
    var lines := Split(consumed);
    assert (consumed + [c])[..|consumed|] == consumed;
    assert Split(consumed + [c])[..|lines| - 1] == lines[..|lines| - 1];
    assert (buffer + [c])[..|buffer|] == buffer;
  }

  function Concat(parts: seq<string>): string {
    if parts == [] then "" else Concat(parts[..|parts| - 1]) + parts[|parts| - 1]
  }

  lemma {:induction false} ConcatPrefix(parts: seq<string>, i: nat)
    requires i <= |parts|
    ensures Concat(parts[..i]) <= Concat(parts)
    decreases |parts|
  {
    if i == |parts| {
      assert parts[..i] == parts;
    } else {
      assert parts[..|parts| - 1][..i] == parts[..i];
      ConcatPrefix(parts[..|parts| - 1], i);
    }
  }

  /**
   * The pump: however the decoded characters arrive in reads, the parser gets the same payloads
   * and the outcome is that of the whole text.
   */
  method PumpStream(setup: Setup, parser: CompletionParser, parts: seq<string>, tail: string)
    returns (r: Checked<LlmResult>, ghost given: seq<Value>)
    requires parser.offer == setup.offer && parser.Now() == setup.start
    modifies parser
    ensures r == Outcome(setup, Reached(setup, Concat(parts), tail))
    ensures given == Reached(setup, Concat(parts), tail).given
  {
    hide Split, After, Take, AtEnd, Reached, ByteLength, ResultOf;
    ghost var text := Concat(parts);
    ghost var p := Progress([], Going(setup.start));
    var buffer: string, bufferBytes: nat, i: nat := "", 0, 0;
    HoldingAtStart(setup);
    while i < |parts|
      invariant 0 <= i <= |parts|
      invariant Holding(setup, Concat(parts[..i]), buffer, bufferBytes, p) && p.phase == Going(parser.Now())
    {
      ConcatPrefix(parts, i + 1);
      assert Concat(parts[..i + 1]) == Concat(parts[..i]) + parts[i] by { assert parts[..i + 1][..i] == parts[..i]; }
      ghost var before := Concat(parts[..i]);
      var j := 0;
      assert before + parts[i][..0] == before;
      while j < |parts[i]|
        invariant 0 <= j <= |parts[i]|
        invariant Holding(setup, before + parts[i][..j], buffer, bufferBytes, p) && p.phase == Going(parser.Now())
      {
        var c := parts[i][j];
        ghost var consumed := before + parts[i][..j];
        ghost var now := consumed + [c];
        assert now == before + parts[i][..j + 1];
        ghost var more := text[|now|..];
        assert text == now + more by { assert now <= Concat(parts[..i + 1]); }
        if c == '\n' {
          NewLine(setup, consumed, buffer, bufferBytes, p);
          var end;
          end, p := Line(setup, parser, buffer, p);
          if end != Next {
            EndedEarly(setup, now, more, tail);
            given := p.given;
            if end == Stop {
              r := parser.Result(setup.decode, true);
            } else {
              r := Fail(ProtocolError);
            }
            return;
          }
          buffer, bufferBytes := "", 0;
          assert ByteLength("") == 0 by { NoBytes(); }
        } else {
          NewCharacter(setup, consumed, buffer, bufferBytes, p, c);
          bufferBytes := bufferBytes + CharBytes(c);
          if bufferBytes > MAX_SSE_BUFFER_BYTES {
            Overlong(setup, now, more, tail);
            given := p.given;
            return Fail(ProtocolError), given;
          }
          buffer := buffer + [c];
        }
        j := j + 1;
      }
      assert before + parts[i][..j] == Concat(parts[..i + 1]);
      i := i + 1;
    }
    assert parts[..i] == parts;
    r, given := Close(setup, parser, text, buffer, bufferBytes, tail, p);
  }

  lemma NoBytes()
    ensures ByteLength("") == 0
  {
  }

  lemma HoldingAtStart(setup: Setup)
    ensures Concat([]) == "" && Holding(setup, "", "", 0, Progress([], Going(setup.start)))
  {
  }

  /** The end of the body: flush the decoder, take the last line, give the result. */
  method Close(setup: Setup, parser: CompletionParser, ghost text: string, buffer: string, ghost bufferBytes: nat,
               tail: string, ghost p: Progress)
    returns (r: Checked<LlmResult>, ghost given: seq<Value>)
    requires Holding(setup, text, buffer, bufferBytes, p)
    requires parser.offer == setup.offer && p.phase == Going(parser.Now())
    modifies parser
    ensures r == Outcome(setup, Reached(setup, text, tail)) && given == Reached(setup, text, tail).given
  {
    hide Split, After, Take, ByteLength, ResultOf;
    var end, last := Next, buffer + tail;
    ghost var q := p;
    if last != "" {
      end, q := Line(setup, parser, last, p);
    }
    assert q == Reached(setup, text, tail);
    given := q.given;
    if end == Throw {
      r := Fail(ProtocolError);
    } else {
      r := parser.Result(setup.decode, true);
    }
  }
}
