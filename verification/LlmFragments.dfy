/** Tool calls come out the same however a provider cuts and interleaves their arguments. */
module LlmFragments {
  import opened Wrappers
  import opened Text
  import opened Json
  import opened LlmProtocol

  /** A call as the model means it. */
  datatype WholeCall = WholeCall(id: string, name: string, rawArguments: string)

  /** One streamed piece of one call. */
  datatype Frag = Frag(index: nat, id: Option<string>, typed: bool, name: Option<string>, arguments: Option<string>)

  datatype StreamChunk = StreamChunk(role: bool, content: Option<string>, frags: seq<Frag>)

  // ---------- On the wire ----------

  function Field(name: string, v: Option<string>): map<string, Value> {
    if v.Some? then map[name := Str(v.value)] else map[]
  }

  function DeltaFields(f: Frag): map<string, Value> {
    Field("id", f.id)
    + (if f.typed then map["type" := Str("function")] else map[])
    + (if f.name.Some? || f.arguments.Some?
       then map["function" := Object(Field("name", f.name) + Field("arguments", f.arguments))] else map[])
  }

  /** Streamed pieces carry their index; the entries of a whole message do not. */
  function Delta(f: Frag, stream: bool): Value {
    Object(if stream then DeltaFields(f)["index" := Number(f.index as real)] else DeltaFields(f))
  }

  function Deltas(fs: seq<Frag>, stream: bool): seq<Value> {
    if fs == [] then [] else [Delta(fs[0], stream)] + Deltas(fs[1..], stream)
  }

  function DeltaValue(c: StreamChunk): Value {
    Object((if c.role then map["role" := Str("assistant")] else map[])
           + Field("content", c.content)
           + (if c.frags == [] then map[] else map["tool_calls" := Array(Deltas(c.frags, true))]))
  }

  function ChunkValue(c: StreamChunk, last: bool): Value {
    var finish := if last then map["finish_reason" := Str("tool_calls")] else map[];
    Object(map["choices" := Array([Object(map["delta" := DeltaValue(c)] + finish)])])
  }

  /** The stream: the last chunk carries the finish. */
  function Payloads(cs: seq<StreamChunk>): seq<Value> {
    if cs == [] then [] else [ChunkValue(cs[0], |cs| == 1)] + Payloads(cs[1..])
  }

  function Entry(call: WholeCall, i: nat): Frag {
    Frag(i, Some(call.id), true, Some(call.name), Some(call.rawArguments))
  }

  function Entries(calls: seq<WholeCall>): (fs: seq<Frag>)
    ensures |fs| == |calls| && forall i :: 0 <= i < |calls| ==> fs[i] == Entry(calls[i], i)
  {
    seq(|calls|, i requires 0 <= i < |calls| => Entry(calls[i], i))
  }

  function WholeValue(calls: seq<WholeCall>, content: Option<string>): Value {
    var message := map["role" := Str("assistant"),
                       "content" := if content.Some? then Str(content.value) else Null,
                       "tool_calls" := Array(Deltas(Entries(calls), false))];
    Object(map["choices" := Array([Object(map["message" := Object(message), "finish_reason" := Str("tool_calls")])])])
  }

  // ---------- What a list of pieces says about each call ----------

  function Ids(fs: seq<Frag>, i: nat): seq<string> {
    if fs == [] then []
    else
      var f := fs[|fs| - 1];
      Ids(fs[..|fs| - 1], i) + (if f.index == i && f.id.Some? then [f.id.value] else [])
  }

  function Names(fs: seq<Frag>, i: nat): seq<string> {
    if fs == [] then []
    else
      var f := fs[|fs| - 1];
      Names(fs[..|fs| - 1], i) + (if f.index == i && f.name.Some? then [f.name.value] else [])
  }

  function Types(fs: seq<Frag>, i: nat): nat {
    if fs == [] then 0
    else
      var f := fs[|fs| - 1];
      Types(fs[..|fs| - 1], i) + (if f.index == i && f.typed then 1 else 0)
  }

  function Arguments(fs: seq<Frag>, i: nat): string {
    if fs == [] then ""
    else
      var f := fs[|fs| - 1];
      Arguments(fs[..|fs| - 1], i) + (if f.index == i && f.arguments.Some? then f.arguments.value else "")
  }

  /** The pieces name, type and fill each call exactly once, in any interleaving. */
  ghost predicate Assembles(fs: seq<Frag>, calls: seq<WholeCall>) {
    && (forall k :: 0 <= k < |fs| ==> fs[k].index < |calls|)
    && forall i :: 0 <= i < |calls| ==>
                     && Ids(fs, i) == [calls[i].id] && Types(fs, i) == 1
                     && Names(fs, i) == [calls[i].name] && Arguments(fs, i) == calls[i].rawArguments
  }

  /** The pieces seen so far of an assembling list. */
  ghost predicate Partial(fs: seq<Frag>, calls: seq<WholeCall>) {
    && (forall k :: 0 <= k < |fs| ==> fs[k].index < |calls|)
    && forall i :: 0 <= i < |calls| ==>
                     && Ids(fs, i) <= [calls[i].id] && Types(fs, i) <= 1
                     && Names(fs, i) <= [calls[i].name] && Arguments(fs, i) <= calls[i].rawArguments
  }

  predicate Fits(calls: seq<WholeCall>) {
    && |calls| <= MAX_CALLS
    && (forall i :: 0 <= i < |calls| ==> ByteLength(calls[i].rawArguments) <= MAX_ARGUMENT_BYTES)
    && AllBytes(calls) <= MAX_TOTAL_ARGUMENT_BYTES
  }

  function AllBytes(calls: seq<WholeCall>): nat {
    if calls == [] then 0 else AllBytes(calls[..|calls| - 1]) + ByteLength(calls[|calls| - 1].rawArguments)
  }

  /** Usable ids, and names the offer allows. */
  predicate Offered(offer: Offer, calls: seq<WholeCall>) {
    forall i :: 0 <= i < |calls| ==>
                  ValidMetadata(calls[i].id) && ValidMetadata(calls[i].name) && Resolve(offer, calls[i].name).Ok?
  }

  function Extend(call: PendingCall, f: Frag): PendingCall {
    PendingCall(if f.id.Some? then f.id else call.id, call.typed || f.typed,
                if f.name.Some? then f.name else call.name,
                call.rawArguments + (if f.arguments.Some? then f.arguments.value else ""))
  }

  /** The parser's table after the pieces. */
  function TableAfter(fs: seq<Frag>): map<nat, PendingCall> {
    if fs == [] then map[]
    else
      var f := fs[|fs| - 1];
      var before := TableAfter(fs[..|fs| - 1]);
      before[f.index := Extend(if f.index in before then before[f.index] else EMPTY_CALL, f)]
  }

  function LastOf(s: seq<string>): Option<string> {
    if s == [] then None else Some(s[|s| - 1])
  }

  /** The table's entry for a call is what the pieces say about it. */
  lemma {:induction false} TableAt(fs: seq<Frag>, i: nat)
    ensures i in TableAfter(fs) ==>
              TableAfter(fs)[i] ==
                  PendingCall(LastOf(Ids(fs, i)), Types(fs, i) > 0, LastOf(Names(fs, i)), Arguments(fs, i))
    ensures i !in TableAfter(fs) ==>
              Ids(fs, i) == [] && Types(fs, i) == 0 && Names(fs, i) == [] && Arguments(fs, i) == ""
    ensures i in TableAfter(fs) ==> exists k :: 0 <= k < |fs| && fs[k].index == i
  {
    if fs != [] {
      var n := |fs| - 1;
      TableAt(fs[..n], i);
      LastIn(fs[..n], fs[n], i);
      hide LastOf;
      if i in TableAfter(fs[..n]) {
        var k :| 0 <= k < n && fs[..n][k].index == i;
        assert fs[k].index == i;
      }
    }
  }

  lemma LastIn(fs: seq<Frag>, f: Frag, i: nat)
    ensures LastOf(Ids(fs, i) + []) == LastOf(Ids(fs, i)) && LastOf(Names(fs, i) + []) == LastOf(Names(fs, i))
            && LastOf([]) == None
    ensures f.id.Some? ==> LastOf(Ids(fs, i) + [f.id.value]) == f.id
    ensures f.name.Some? ==> LastOf(Names(fs, i) + [f.name.value]) == f.name
    ensures Arguments(fs, i) + "" == Arguments(fs, i)
  {
    hide Ids, Names, Arguments;
    assert Ids(fs, i) + [] == Ids(fs, i) && Names(fs, i) + [] == Names(fs, i);
  }

  function Full(call: WholeCall): PendingCall {
    PendingCall(Some(call.id), true, Some(call.name), call.rawArguments)
  }

  function Upto(n: nat): (s: set<nat>)
    ensures |s| == n && forall i: nat :: i in s <==> i < n
  {
    if n == 0 then {} else Upto(n - 1) + {n - 1}
  }

  /** Every assembling list leads to the same table. */
  lemma AssembledTable(fs: seq<Frag>, calls: seq<WholeCall>)
    requires Assembles(fs, calls)
    ensures TableAfter(fs).Keys == Upto(|calls|) && |TableAfter(fs)| == |calls|
    ensures forall i :: 0 <= i < |calls| ==> i in TableAfter(fs) && TableAfter(fs)[i] == Full(calls[i])
  {
    forall i: nat
      ensures i in TableAfter(fs) <==> i < |calls|
      ensures i < |calls| ==> TableAfter(fs)[i] == Full(calls[i])
    {
      TableAt(fs, i);
    }
    assert TableAfter(fs).Keys == Upto(|calls|);
    assert |TableAfter(fs)| == |TableAfter(fs).Keys|;
  }

  lemma SameTable(fs: seq<Frag>, gs: seq<Frag>, calls: seq<WholeCall>)
    requires Assembles(fs, calls) && Assembles(gs, calls)
    ensures TableAfter(fs) == TableAfter(gs)
  {
    AssembledTable(fs, calls);
    AssembledTable(gs, calls);
  }

  /** The entries of a whole message assemble it. */
  lemma EntriesAssemble(calls: seq<WholeCall>)
    ensures Assembles(Entries(calls), calls)
  {
    forall i | 0 <= i < |calls|
      ensures Ids(Entries(calls), i) == [calls[i].id] && Types(Entries(calls), i) == 1
      ensures Names(Entries(calls), i) == [calls[i].name] && Arguments(Entries(calls), i) == calls[i].rawArguments
    {
      EntriesAt(Entries(calls), calls, i);
    }
  }

  lemma {:induction false} EntriesAt(fs: seq<Frag>, calls: seq<WholeCall>, i: nat)
    requires |fs| <= |calls| && i < |calls| && forall k :: 0 <= k < |fs| ==> fs[k] == Entry(calls[k], k)
    ensures if i < |fs| then
              Ids(fs, i) == [calls[i].id] && Types(fs, i) == 1 && Names(fs, i) == [calls[i].name]
                  && Arguments(fs, i) == calls[i].rawArguments
            else Ids(fs, i) == [] && Types(fs, i) == 0 && Names(fs, i) == [] && Arguments(fs, i) == ""
  {
    if fs != [] {
      EntriesAt(fs[..|fs| - 1], calls, i);
    }
  }

  // ---------- Each piece is accepted ----------

  lemma AssemblesIsPartial(fs: seq<Frag>, calls: seq<WholeCall>)
    requires Assembles(fs, calls)
    ensures Partial(fs, calls)
  {
  }

  /** Dropping the newest piece leaves a partial list. */
  lemma PartialPrefix(fs: seq<Frag>, calls: seq<WholeCall>)
    requires Partial(fs, calls) && fs != []
    ensures Partial(fs[..|fs| - 1], calls)
  {
    var p := fs[..|fs| - 1];
    forall i | 0 <= i < |calls|
      ensures Ids(p, i) <= [calls[i].id] && Names(p, i) <= [calls[i].name] && Arguments(p, i) <= calls[i].rawArguments
    {
      assert Ids(p, i) <= Ids(fs, i) && Names(p, i) <= Names(fs, i) && Arguments(p, i) <= Arguments(fs, i);
    }
  }

  lemma {:induction false} PartialPrefixes(fs: seq<Frag>, calls: seq<WholeCall>, n: nat)
    requires Partial(fs, calls) && n <= |fs|
    ensures Partial(fs[..n], calls)
    decreases |fs|
  {
    if n == |fs| {
      assert fs[..n] == fs;
    } else {
      PartialPrefix(fs, calls);
      PartialPrefixes(fs[..|fs| - 1], calls, n);
      assert fs[..|fs| - 1][..n] == fs[..n];
    }
  }

  lemma PrefixBytes(s: string, t: string)
    requires s <= t
    ensures ByteLength(s) <= ByteLength(t)
  {
    assert t == s + t[|s|..];
    ByteLengthAppend(s, t[|s|..]);
  }

  /** A partial table is within the limits the whole calls fit in. */
  lemma PartialFits(fs: seq<Frag>, calls: seq<WholeCall>)
    requires Partial(fs, calls) && Fits(calls)
    ensures WithinLimits(TableAfter(fs))
  {
    var table := TableAfter(fs);
    forall i: nat
      ensures i in table ==> i < |calls|
      ensures BytesAt(table, i) <= if i < |calls| then ByteLength(calls[i].rawArguments) else 0
    {
      TableAt(fs, i);
      if i in table {
        PrefixBytes(Arguments(fs, i), calls[i].rawArguments);
      }
    }
    TotalFits(table, calls, MAX_CALLS);
  }

  lemma {:induction false} TotalFits(table: map<nat, PendingCall>, calls: seq<WholeCall>, n: nat)
    requires forall i: nat :: BytesAt(table, i) <= if i < |calls| then ByteLength(calls[i].rawArguments) else 0
    ensures TotalBytes(table, n) <= if n < |calls| then AllBytes(calls[..n]) else AllBytes(calls)
  {
    if n > 0 {
      TotalFits(table, calls, n - 1);
      if n <= |calls| {
        assert calls[..n][..n - 1] == calls[..n - 1];
        assert calls[..|calls|] == calls;
      }
    } else {
      assert calls[..0] == [];
    }
  }

  /** Reading a piece's fields back from the wire. */
  lemma DeltaReads(f: Frag, stream: bool)
    ensures var d := Delta(f, stream);
            && d.Object?
            && (d.Get("id") == if f.id.Some? then Some(Str(f.id.value)) else None)
            && (d.Get("type") == if f.typed then Some(Str("function")) else None)
            && (if f.name.None? && f.arguments.None? then d.Get("function").None?
                else && d.Get("function").Some? && d.Get("function").value.Object?
                     && (d.Get("function").value.Get("name") == if f.name.Some? then Some(Str(f.name.value)) else None)
                     && (d.Get("function").value.Get("arguments") ==
                         if f.arguments.Some? then Some(Str(f.arguments.value)) else None))
            && (stream ==> d.Get("index") == Some(Number(f.index as real)))
  {
  }

  /** Applying one acceptable piece to a pending call. */
  lemma TakeFrag(offer: Offer, call: PendingCall, f: Frag, stream: bool)
    requires f.id.Some? ==> call.id.None? && ValidMetadata(f.id.value)
    requires f.typed ==> !call.typed
    requires f.name.Some? ==> call.name.None? && ValidMetadata(f.name.value) && Resolve(offer, f.name.value).Ok?
    ensures TakeDelta(offer, call, Delta(f, stream)) == Ok(Extend(call, f))
  {
    hide ValidMetadata, Resolve, Delta;
    DeltaReads(f, stream);
    assert call.rawArguments + "" == call.rawArguments;
  }

  lemma IndexOf(f: Frag, position: nat, stream: bool)
    requires f.index < MAX_CALLS && (!stream ==> position == f.index)
    ensures CallIndex(if stream then None else Some(position), Delta(f, stream)) == Some(f.index)
  {
    DeltaReads(f, stream);
    assert (f.index as real).Floor == f.index;
  }

  /** The next piece of an assembling list is accepted and extends the table. */
  lemma {:induction false} FragAccepted(offer: Offer, fs: seq<Frag>, calls: seq<WholeCall>, position: nat, stream: bool)
    requires fs != [] && Partial(fs, calls) && Fits(calls) && Offered(offer, calls)
    requires !stream ==> position == fs[|fs| - 1].index
    ensures AddCall(offer, TableAfter(fs[..|fs| - 1]), Delta(fs[|fs| - 1], stream),
                    if stream then None else Some(position))
            == Ok(TableAfter(fs))
  {
    hide TakeDelta, CallIndex, WithinLimits, Delta, Fits, ValidMetadata, Resolve;
    var p, f := fs[..|fs| - 1], fs[|fs| - 1];
    var i := f.index;
    assert i < |calls| by { assert fs[|fs| - 1].index < |calls|; }
    PartialPrefix(fs, calls);
    TableAt(p, i);
    assert Ids(p, i) <= [calls[i].id] && Ids(fs, i) <= [calls[i].id];
    assert Names(p, i) <= [calls[i].name] && Names(fs, i) <= [calls[i].name];
    var before := TableAfter(p);
    var call := if i in before then before[i] else EMPTY_CALL;
    assert f.id.Some? ==> call.id.None? && f.id.value == calls[i].id by {
      if f.id.Some? { assert Ids(fs, i)[|Ids(p, i)|] == f.id.value; }
    }
    assert f.name.Some? ==> call.name.None? && f.name.value == calls[i].name by {
      if f.name.Some? { assert Names(fs, i)[|Names(p, i)|] == f.name.value; }
    }
    TakeFrag(offer, call, f, stream);
    CallsAreFew(calls);
    IndexOf(f, position, stream);
    PartialFits(fs, calls);
    DeltaReads(f, stream);
    assert TableAfter(fs) == before[i := Extend(call, f)];
  }

  /** A run of pieces, from any point of an assembling list. */
  lemma {:induction false} FragsAccepted(offer: Offer, p: seq<Frag>, fs: seq<Frag>, calls: seq<WholeCall>, from: nat,
                                         stream: bool)
    requires Partial(p + fs, calls) && Fits(calls) && Offered(offer, calls)
    requires !stream ==> forall k :: 0 <= k < |fs| ==> fs[k].index == from + k
    ensures AddCalls(offer, TableAfter(p), Deltas(fs, stream), stream, from) == Ok(TableAfter(p + fs))
    decreases fs
  {
    hide AddCall, TableAfter, Delta, Partial, Fits, Offered;
    if fs == [] {
      assert p + fs == p;
    } else {
      var q := p + [fs[0]];
      assert q + fs[1..] == p + fs && (p + fs)[..|q|] == q && q[..|p|] == p;
      PartialPrefixes(p + fs, calls, |q|);
      FragAccepted(offer, q, calls, from, stream);
      FragsAccepted(offer, q, fs[1..], calls, from + 1, stream);
    }
  }

  // ---------- Chunks ----------

  function AllFrags(cs: seq<StreamChunk>): seq<Frag> {
    if cs == [] then [] else cs[0].frags + AllFrags(cs[1..])
  }

  function Joined(content: Option<string>, cs: seq<StreamChunk>): Option<string>
    decreases cs
  {
    if cs == [] then content
    else
      var c := cs[0].content;
      Joined(if c.Some? then Some((if content.Some? then content.value else "") + c.value) else content, cs[1..])
  }

  function Sent(content: Option<string>): string {
    if content.Some? then content.value else ""
  }

  lemma {:induction false} DeltasLength(fs: seq<Frag>, stream: bool)
    ensures |Deltas(fs, stream)| == |fs|
  {
    if fs != [] {
      DeltasLength(fs[1..], stream);
    }
  }

  /** One chunk moves the state by its content and its pieces. */
  lemma ChunkAccepted(offer: Offer, p: seq<Frag>, c: StreamChunk, calls: seq<WholeCall>, st: State, last: bool)
    requires Partial(p + c.frags, calls) && Fits(calls) && Offered(offer, calls) && |c.frags| <= MAX_CALLS
    requires st.calls == TableAfter(p) && st.finish.None? && !st.done && st.sent == Sent(st.content)
    ensures Chunk(Some(offer), st, ChunkValue(c, last)) ==
            Ok(st.(calls := TableAfter(p + c.frags), content := Joined(st.content, [c]),
                   sent := Sent(Joined(st.content, [c])),
                   finish := if last then Some("tool_calls") else None))
  {
    hide AddCalls, Deltas, TableAfter, Partial, Offered, Fits;
    FragsAccepted(offer, p, c.frags, calls, 0, true);
    DeltasLength(c.frags, true);
    if c.frags == [] {
      assert p + c.frags == p;
    }
    assert Joined(st.content, [c]) == if c.content.Some? then Some(Sent(st.content) + c.content.value) else st.content;
    var data := ChunkValue(c, last);
    ChunkReads(c, last);
    hide ChunkValue, Choice;
    var choice := Choice(data, true).value.value;
    var delta := choice.Get("delta").value;
    assert ReadModel(st, data) == Ok(st);
    var st1 := st.(calls := TableAfter(p + c.frags), content := Joined(st.content, [c]));
    assert TakeToolCalls(Some(offer), st.calls, delta.Get("tool_calls"), true) == Ok(TableAfter(p + c.frags));
    assert FinishReason(Some(offer), st1, choice.Get("finish_reason")) ==
           Ok(st1.(finish := if last then Some("tool_calls") else None));
    assert c.content.None? ==> Joined(st.content, [c]) == st.content;
    assert st.sent + "" == st.sent;
    assert Message(Some(offer), st, delta, true) ==
           Ok(st.(calls := TableAfter(p + c.frags), content := Joined(st.content, [c])));
  }

  lemma ChunkReads(c: StreamChunk, last: bool)
    ensures var data := ChunkValue(c, last);
            && data.Object? && data.Get("model").None? && data.Get("error").None?
            && Choice(data, true).Ok? && Choice(data, true).value.Some?
            && var choice := Choice(data, true).value.value;
               && choice.Get("finish_reason") == (if last then Some(Str("tool_calls")) else None)
               && choice.Get("delta").Some? && choice.Get("delta").value.Object?
               && var delta := choice.Get("delta").value;
                  && delta.Get("role") == (if c.role then Some(Str("assistant")) else None)
                  && delta.Get("function_call").None?
                  && delta.Get("content") == (if c.content.Some? then Some(Str(c.content.value)) else None)
                  && delta.Get("tool_calls") == (if c.frags == [] then None else Some(Array(Deltas(c.frags, true))))
  {
    hide DeltaValue;
    ChoiceDeltaReads(c);
  }

  lemma ChoiceDeltaReads(c: StreamChunk)
    ensures var delta := DeltaValue(c);
            && delta.Object? && delta.Get("role") == (if c.role then Some(Str("assistant")) else None)
            && delta.Get("function_call").None?
            && delta.Get("content") == (if c.content.Some? then Some(Str(c.content.value)) else None)
            && delta.Get("tool_calls") == (if c.frags == [] then None else Some(Array(Deltas(c.frags, true))))
  {
    hide Deltas;
  }

  /** The whole stream, from any point of it. */
  lemma {:induction false} StreamAccepted(offer: Offer, p: seq<Frag>, cs: seq<StreamChunk>, calls: seq<WholeCall>,
                                          st: State)
    requires Partial(p + AllFrags(cs), calls) && Fits(calls) && Offered(offer, calls) && cs != []
    requires forall k :: 0 <= k < |cs| ==> |cs[k].frags| <= MAX_CALLS
    requires st.calls == TableAfter(p) && st.finish.None? && !st.done && st.sent == Sent(st.content)
    ensures Chunks(Some(offer), st, Payloads(cs)) ==
            Ok(st.(calls := TableAfter(p + AllFrags(cs)), content := Joined(st.content, cs),
                   sent := Sent(Joined(st.content, cs)),
                   finish := Some("tool_calls")))
    decreases cs
  {
    hide Chunk, TableAfter, Partial, Offered, Fits, ChunkValue;
    var c, rest := cs[0], cs[1..];
    var q := p + c.frags;
    assert q + AllFrags(rest) == p + AllFrags(cs) && (p + AllFrags(cs))[..|q|] == q;
    PartialPrefixes(p + AllFrags(cs), calls, |q|);
    ChunkAccepted(offer, p, c, calls, st, |cs| == 1);
    var st1 := Chunk(Some(offer), st, ChunkValue(c, |cs| == 1)).value;
    assert Joined(st.content, cs) == Joined(st1.content, rest);
    if rest == [] {
      assert q + AllFrags(rest) == q;
    } else {
      StreamAccepted(offer, q, rest, calls, st1);
    }
  }

  /** The whole message gives the same table in one go. */
  lemma WholeAccepted(offer: Offer, calls: seq<WholeCall>, content: Option<string>, model: string)
    requires Fits(calls) && Offered(offer, calls) && calls != []
    ensures Response(Some(offer), Start(model), WholeValue(calls, content)) ==
            Ok(Start(model).(calls := TableAfter(Entries(calls)), content := content, finish := Some("tool_calls")))
  {
    var data := WholeValue(calls, content);
    WholeReads(calls, content);
    hide WholeValue, Choice, TableAfter, Entries, Message;
    var choice := Choice(data, false).value.value;
    var st := Start(model);
    var st1 := st.(calls := TableAfter(Entries(calls)), content := content);
    assert ReadModel(st, data) == Ok(st);
    assert FinishReason(Some(offer), st1, choice.Get("finish_reason")) == Ok(st1.(finish := Some("tool_calls")));
    hide FinishReason, ReadModel;
    WholeMessage(offer, calls, content, st, choice.Get("message").value);
  }

  lemma WholeMessage(offer: Offer, calls: seq<WholeCall>, content: Option<string>, st: State, message: Value)
    requires Fits(calls) && Offered(offer, calls) && calls != [] && st.calls == map[] && st.content == None
    requires message.Get("role") == Some(Str("assistant")) && message.Get("function_call").None?
    requires message.Get("content") == Some(if content.Some? then Str(content.value) else Null)
    requires message.Get("tool_calls") == Some(Array(Deltas(Entries(calls), false)))
    ensures Message(Some(offer), st, message, false) == Ok(st.(calls := TableAfter(Entries(calls)), content := content))
  {
    hide AddCalls, Deltas, Partial, Offered, Fits, TableAfter;
    var fs := Entries(calls);
    EntriesAssemble(calls);
    AssemblesIsPartial(fs, calls);
    assert [] + fs == fs;
    FragsAccepted(offer, [], fs, calls, 0, false);
    DeltasLength(fs, false);
    CallsAreFew(calls);
    EmptyTable();
    hide Entries, Assembles;
    assert TakeToolCalls(Some(offer), st.calls, message.Get("tool_calls"), false) == Ok(TableAfter(fs));
    assert content.Some? ==> "" + content.value == content.value;
  }

  lemma CallsAreFew(calls: seq<WholeCall>)
    requires Fits(calls)
    ensures |calls| <= MAX_CALLS
  {
  }

  lemma WholeReads(calls: seq<WholeCall>, content: Option<string>)
    ensures var data := WholeValue(calls, content);
            && data.Object? && data.Get("model").None? && data.Get("error").None?
            && Choice(data, false).Ok? && Choice(data, false).value.Some?
            && var choice := Choice(data, false).value.value;
               && choice.Get("finish_reason") == Some(Str("tool_calls"))
               && choice.Get("message").Some? && choice.Get("message").value.Object?
               && var message := choice.Get("message").value;
                  && message.Get("role") == Some(Str("assistant"))
                  && message.Get("function_call").None?
                  && message.Get("content") == Some(if content.Some? then Str(content.value) else Null)
                  && message.Get("tool_calls") == Some(Array(Deltas(Entries(calls), false)))
  {
    hide Deltas;
  }

  /**
   * Fragmentation independence: any cut of the calls into pieces, any interleaving and any chunking,
   * closed by the finish and the end marker, parses to exactly what the whole message parses to.
   */
  lemma FragmentationIndependence(offer: Offer, decode: Decoder, model: string, calls: seq<WholeCall>,
                                  content: Option<string>, cs: seq<StreamChunk>)
    requires Fits(calls) && Offered(offer, calls) && calls != [] && cs != []
    requires Assembles(AllFrags(cs), calls) && Joined(None, cs) == content
    requires forall k :: 0 <= k < |cs| ==> |cs[k].frags| <= MAX_CALLS
    ensures Streamed(Some(offer), decode, model, Payloads(cs)) ==
            Whole(Some(offer), decode, model, WholeValue(calls, content))
  {
    hide Fits, Offered, TableAfter, Payloads, Response, Chunks, ResultOf, Joined, AllFrags, Assembles, Partial,
         WholeValue, Entries, Full;
    assert [] + AllFrags(cs) == AllFrags(cs);
    EmptyTable();
    AssemblesIsPartial(AllFrags(cs), calls);
    StreamAccepted(offer, [], cs, calls, Start(model));
    WholeAccepted(offer, calls, content, model);
    EntriesAssemble(calls);
    SameTable(AllFrags(cs), Entries(calls), calls);
    AssembledTable(Entries(calls), calls);
    SameResult(offer, decode, Chunks(Some(offer), Start(model), Payloads(cs)).value,
               Response(Some(offer), Start(model), WholeValue(calls, content)).value);
  }

  /** A stream that was closed and a whole message give the same result on the same table. */
  lemma SameResult(offer: Offer, decode: Decoder, streamed: State, whole: State)
    requires streamed.calls == whole.calls && |whole.calls| > 0 && streamed.content == whole.content
             && streamed.model == whole.model
    requires streamed.finish == whole.finish == Some("tool_calls")
    ensures ResultOf(Some(offer), decode, streamed.(done := true), true) == ResultOf(Some(offer), decode, whole, false)
  {
    hide FinishCalls;
  }

  lemma EmptyTable()
    ensures TableAfter([]) == map[]
  {
  }

  /** And when the ids differ and every argument text is a record, that result is the calls themselves. */
  lemma WholeYieldsTheCalls(offer: Offer, decode: Decoder, model: string, calls: seq<WholeCall>,
                            content: Option<string>)
    requires Fits(calls) && Offered(offer, calls) && calls != []
    requires forall i, j :: 0 <= i < j < |calls| ==> calls[i].id != calls[j].id
    requires forall i :: 0 <= i < |calls| ==>
               decode(calls[i].rawArguments).Some? && decode(calls[i].rawArguments).value.Object?
    ensures Whole(Some(offer), decode, model, WholeValue(calls, content)) ==
            Ok(CallsResult(content, model, ToolsOf(offer, decode, calls)))
  {
    hide Fits, Offered, Response, TableAfter, FinishCalls, WholeValue, ToolsOf, Entries, Full, Assembles, ResultOf;
    WholeAccepted(offer, calls, content, model);
    EntriesAssemble(calls);
    AssembledTable(Entries(calls), calls);
    FinishGivesTools(offer, decode, calls, TableAfter(Entries(calls)));
    ResultOfTools(offer, decode, Response(Some(offer), Start(model), WholeValue(calls, content)).value,
                  ToolsOf(offer, decode, calls));
  }

  lemma ResultOfTools(offer: Offer, decode: Decoder, st: State, tools: seq<ToolCall>)
    requires |st.calls| > 0 && st.finish == Some("tool_calls")
             && FinishCalls(offer, decode, st.calls, |st.calls|) == Ok(tools)
    ensures ResultOf(Some(offer), decode, st, false) == Ok(CallsResult(st.content, st.model, tools))
  {
    hide FinishCalls;
  }

  function ToolsOf(offer: Offer, decode: Decoder, calls: seq<WholeCall>): seq<ToolCall>
    requires Offered(offer, calls)
    requires forall i :: 0 <= i < |calls| ==>
               decode(calls[i].rawArguments).Some? && decode(calls[i].rawArguments).value.Object?
  {
    seq(|calls|, i requires 0 <= i < |calls| =>
      ToolCall(calls[i].id, offer.aliases[calls[i].name], calls[i].rawArguments,
               decode(calls[i].rawArguments).value.fields))
  }

  lemma FinishGivesTools(offer: Offer, decode: Decoder, calls: seq<WholeCall>, table: map<nat, PendingCall>)
    requires Offered(offer, calls)
    requires forall i :: 0 <= i < |calls| ==> i in table && table[i] == Full(calls[i])
    requires forall i, j :: 0 <= i < j < |calls| ==> calls[i].id != calls[j].id
    requires forall i :: 0 <= i < |calls| ==>
               decode(calls[i].rawArguments).Some? && decode(calls[i].rawArguments).value.Object?
    ensures FinishCalls(offer, decode, table, |calls|) == Ok(ToolsOf(offer, decode, calls))
  {
    CallsFinish(offer, decode, calls, table, |calls|);
    hide FinishCalls;
    assert FinishCalls(offer, decode, table, |calls|).value == ToolsOf(offer, decode, calls);
  }

  lemma {:induction false} CallsFinish(offer: Offer, decode: Decoder, calls: seq<WholeCall>,
                                       table: map<nat, PendingCall>, n: nat)
    requires Offered(offer, calls) && n <= |calls|
    requires forall i :: 0 <= i < |calls| ==> i in table && table[i] == Full(calls[i])
    requires forall i, j :: 0 <= i < j < |calls| ==> calls[i].id != calls[j].id
    requires forall i :: 0 <= i < |calls| ==>
               decode(calls[i].rawArguments).Some? && decode(calls[i].rawArguments).value.Object?
    ensures FinishCalls(offer, decode, table, n).Ok?
    ensures forall i :: 0 <= i < n ==>
                          FinishCalls(offer, decode, table, n).value[i] ==
                          ToolCall(calls[i].id, offer.aliases[calls[i].name], calls[i].rawArguments,
                                   decode(calls[i].rawArguments).value.fields)
  {
    hide ValidMetadata, Resolve, FinishCall;
    if n > 0 {
      CallsFinish(offer, decode, calls, table, n - 1);
      FullFinishes(offer, decode, calls, n - 1);
      var done := FinishCalls(offer, decode, table, n - 1).value;
      assert forall k :: 0 <= k < |done| ==> done[k].id != calls[n - 1].id;
    }
  }

  lemma FullFinishes(offer: Offer, decode: Decoder, calls: seq<WholeCall>, i: nat)
    requires Offered(offer, calls) && i < |calls|
    requires decode(calls[i].rawArguments).Some? && decode(calls[i].rawArguments).value.Object?
    ensures calls[i].name in offer.aliases
    ensures FinishCall(offer, decode, Full(calls[i])) ==
            Ok(ToolCall(calls[i].id, offer.aliases[calls[i].name], calls[i].rawArguments,
                        decode(calls[i].rawArguments).value.fields))
  {
    hide ValidMetadata;
  }
}
