/** Which conversation transcripts a tool request accepts, and what it sends for them. */
module LlmTranscript {
  import opened Wrappers
  import opened Text
  import opened Json
  import P = LlmProtocol

  datatype Call = Call(id: string, name: string, rawArguments: string)

  datatype Message =
    | Plain(role: string, content: string)
    | AssistantCalls(preface: Option<string>, calls: seq<Call>)
    | ToolReply(callId: string, content: string)

  /** A name as the provider sees it; `Garbled` is the function object an inherited name looks up to. */
  datatype Alias = Alias(name: string) | Garbled

  datatype SentCall = SentCall(id: string, alias: Alias, rawArguments: string)

  datatype Sent =
    | SentPlain(role: string, content: string)
    | SentCalls(preface: Option<string>, calls: seq<SentCall>)
    | SentReply(callId: string, content: string)

  // ---------- Names ----------

  predicate NameStart(c: char) {
    'a' <= c <= 'z' || '0' <= c <= '9'
  }

  predicate ForeignName(name: string) {
    name != "" && NameStart(name[0]) && forall i :: 0 <= i < |name| ==> NameStart(name[i]) || name[i] in {'_', '-'}
  }

  function ProviderAlias(name: string): Option<Alias> {
    if name == "session.search" then Some(Alias("session_search"))
    else if name == "session.rename" then Some(Alias("session_rename"))
    else if name in INHERITED then Some(Garbled)
    else if ForeignName(name) then Some(Alias(name))
    else None
  }

  // ---------- Reference: a transcript is a list of blocks ----------

  /** A plain message, or an assistant round with its replies. */
  datatype Block =
    | Said(role: string, content: string)
    | Round(preface: Option<string>, calls: seq<Call>, replies: seq<Message>)

  function Ids(calls: seq<Call>): seq<string> {
    if calls == [] then [] else Ids(calls[..|calls| - 1]) + [calls[|calls| - 1].id]
  }

  function ReplyIds(replies: seq<Message>): seq<string>
    requires forall m <- replies :: m.ToolReply?
  {
    if replies == [] then [] else ReplyIds(replies[..|replies| - 1]) + [replies[|replies| - 1].callId]
  }

  ghost predicate Unique(s: seq<string>) {
    forall i, j :: 0 <= i < j < |s| ==> s[i] != s[j]
  }

  function Bytes(calls: seq<Call>): nat {
    if calls == [] then 0 else Bytes(calls[..|calls| - 1]) + ByteLength(calls[|calls| - 1].rawArguments)
  }

  predicate CallOk(decode: P.Decoder, call: Call) {
    && P.ValidMetadata(call.id) && ProviderAlias(call.name).Some?
        && ByteLength(call.rawArguments) <= P.MAX_ARGUMENT_BYTES
    && decode(call.rawArguments).Some? && decode(call.rawArguments).value.Object?
  }

  ghost predicate CallsOk(decode: P.Decoder, calls: seq<Call>) {
    && 1 <= |calls| <= P.MAX_CALLS && (forall i :: 0 <= i < |calls| ==> CallOk(decode, calls[i]))
    && Bytes(calls) <= P.MAX_TOTAL_ARGUMENT_BYTES && Unique(Ids(calls))
  }

  /** One reply per call, in some order. */
  ghost predicate BlockOk(decode: P.Decoder, b: Block) {
    b.Round? ==>
      && CallsOk(decode, b.calls) && (forall m <- b.replies :: m.ToolReply?)
      && multiset(ReplyIds(b.replies)) == multiset(Ids(b.calls))
  }

  function Messages(b: Block): seq<Message> {
    match b
    case Said(role, content) => [Plain(role, content)]
    case Round(preface, calls, replies) => [AssistantCalls(preface, calls)] + replies
  }

  function Flatten(blocks: seq<Block>): seq<Message> {
    if blocks == [] then [] else Flatten(blocks[..|blocks| - 1]) + Messages(blocks[|blocks| - 1])
  }

  function UsedIds(blocks: seq<Block>): seq<string> {
    if blocks == [] then []
    else
      var b := blocks[|blocks| - 1];
      UsedIds(blocks[..|blocks| - 1]) + (if b.Round? then Ids(b.calls) else [])
  }

  ghost predicate Splits(decode: P.Decoder, ms: seq<Message>, blocks: seq<Block>) {
    Flatten(blocks) == ms && (forall i :: 0 <= i < |blocks| ==> BlockOk(decode, blocks[i])) && Unique(UsedIds(blocks))
  }

  ghost predicate WellFormed(decode: P.Decoder, ms: seq<Message>) {
    exists blocks :: Splits(decode, ms, blocks)
  }

  // ---------- The scan ----------

  datatype Scan = Scan(pending: set<string>, seen: set<string>)

  function Elements(s: seq<string>): (r: set<string>)
    ensures forall x :: x in r <==> x in s
  {
    set x | x in s
  }

  ghost function Step(decode: P.Decoder, s: Scan, m: Message): Option<Scan> {
    match m
    case ToolReply(id, _) => if id in s.pending then Some(s.(pending := s.pending - {id})) else None
    case Plain(_, _) => if s.pending == {} then Some(s) else None
    case AssistantCalls(_, calls) =>
      var ids := Elements(Ids(calls));
      if s.pending == {} && CallsOk(decode, calls) && ids !! s.seen then Some(Scan(ids, s.seen + ids)) else None
  }

  ghost function Scanned(decode: P.Decoder, ms: seq<Message>): Option<Scan> {
    if ms == [] then Some(Scan({}, {}))
    else
      match Scanned(decode, ms[..|ms| - 1])
      case None => None
      case Some(s) => Step(decode, s, ms[|ms| - 1])
  }

  ghost predicate Accepted(decode: P.Decoder, ms: seq<Message>) {
    Scanned(decode, ms).Some? && Scanned(decode, ms).value.pending == {}
  }

  // ---------- The scan accepts exactly the transcripts ----------

  lemma UniqueIsSet(s: seq<string>)
    requires Unique(s)
    ensures multiset(Elements(s)) == multiset(s)
  {
    forall x
      ensures multiset(s)[x] == multiset(Elements(s))[x]
    {
      UniqueCount(s, x);
    }
  }

  lemma {:induction false} UniqueCount(s: seq<string>, x: string)
    requires Unique(s)
    ensures multiset(s)[x] == if x in s then 1 else 0
  {
    if s != [] {
      var n := |s| - 1;
      UniqueCount(s[..n], x);
      assert s == s[..n] + [s[n]];
    }
  }

  lemma UniqueAppend(s: seq<string>, t: seq<string>)
    ensures Unique(s + t) <==> Unique(s) && Unique(t) && Elements(s) !! Elements(t)
  {
    var st := s + t;
    assert forall i :: 0 <= i < |s| ==> st[i] == s[i];
    assert forall j :: 0 <= j < |t| ==> st[|s| + j] == t[j];
    if Unique(st) {
      forall i, j | 0 <= i < j < |t|
        ensures t[i] != t[j]
      {
        assert st[|s| + i] != st[|s| + j];
      }
      forall i, j | 0 <= i < |s| && 0 <= j < |t|
        ensures s[i] != t[j]
      {
        assert st[i] != st[|s| + j];
      }
    }
    if Unique(s) && Unique(t) && Elements(s) !! Elements(t) {
      forall i, j | 0 <= i < j < |st|
        ensures st[i] != st[j]
      {
        if i < |s| <= j {
          assert s[i] in Elements(s) && t[j - |s|] in Elements(t);
        }
      }
    }
  }

  /** A reply to a call still pending, counted. */
  lemma OneReply(pending: set<string>, before: multiset<string>, id: string, all: multiset<string>)
    requires multiset(pending) + before == all
    ensures before + multiset{id} <= all ==> id in pending
    ensures id in pending ==> multiset(pending - {id}) + (before + multiset{id}) == all
  {
    if before + multiset{id} <= all {
      assert before[id] < all[id] == multiset(pending)[id] + before[id];
    }
    if id in pending {
      assert multiset(pending) == multiset(pending - {id}) + multiset{id};
    }
  }

  lemma ScanThen(decode: P.Decoder, ms: seq<Message>, m: Message)
    ensures Scanned(decode, ms + [m]) ==
            match Scanned(decode, ms) { case None => None case Some(s) => Step(decode, s, m) }
  {
    assert (ms + [m])[..|ms|] == ms;
  }

  /** The round and any replies it still waits for. */
  lemma {:induction false} ScanReplies(decode: P.Decoder, ms: seq<Message>, preface: Option<string>, calls: seq<Call>,
                                       replies: seq<Message>, seen: set<string>)
    returns (pending: set<string>)
    requires Scanned(decode, ms) == Some(Scan({}, seen)) && CallsOk(decode, calls) && Elements(Ids(calls)) !! seen
    requires (forall m <- replies :: m.ToolReply?) && multiset(ReplyIds(replies)) <= multiset(Ids(calls))
    ensures Scanned(decode, ms + ([AssistantCalls(preface, calls)] + replies)) ==
            Some(Scan(pending, seen + Elements(Ids(calls))))
    ensures multiset(pending) + multiset(ReplyIds(replies)) == multiset(Ids(calls))
    decreases replies
  {
    assert ReplyIds([]) == [];
    hide Scanned, CallsOk, Ids, ReplyIds, Step, Elements;
    var head := AssistantCalls(preface, calls);
    if replies == [] {
      pending := Elements(Ids(calls));
      RoundStarts(decode, ms, preface, calls, seen);
      assert [head] + replies == [head];
    } else {
      var rest, m := replies[..|replies| - 1], replies[|replies| - 1];
      LastReplyId(replies);
      var before := multiset(ReplyIds(rest));
      pending := ScanReplies(decode, ms, preface, calls, rest, seen);
      OneReply(pending, before, m.callId, multiset(Ids(calls)));
      ReplyScanned(decode, ms + ([head] + rest), pending, seen + Elements(Ids(calls)), m);
      RoundGrows(ms, head, replies);
      pending := pending - {m.callId};
    }
  }

  lemma RoundGrows(ms: seq<Message>, head: Message, replies: seq<Message>)
    requires replies != []
    ensures ms + ([head] + replies) == ms + ([head] + replies[..|replies| - 1]) + [replies[|replies| - 1]]
  {
  }

  lemma ReplyScanned(decode: P.Decoder, ms: seq<Message>, pending: set<string>, seen: set<string>, m: Message)
    requires Scanned(decode, ms) == Some(Scan(pending, seen)) && m.ToolReply? && m.callId in pending
    ensures Scanned(decode, ms + [m]) == Some(Scan(pending - {m.callId}, seen))
  {
    hide Scanned, CallsOk;
    ScanThen(decode, ms, m);
  }

  lemma RoundStarts(decode: P.Decoder, ms: seq<Message>, preface: Option<string>, calls: seq<Call>, seen: set<string>)
    requires Scanned(decode, ms) == Some(Scan({}, seen)) && CallsOk(decode, calls) && Elements(Ids(calls)) !! seen
    ensures Scanned(decode, ms + [AssistantCalls(preface, calls)]) ==
            Some(Scan(Elements(Ids(calls)), seen + Elements(Ids(calls))))
    ensures multiset(Elements(Ids(calls))) == multiset(Ids(calls))
  {
    hide Scanned, Ids;
    UniqueIsSet(Ids(calls));
    ScanThen(decode, ms, AssistantCalls(preface, calls));
  }

  lemma LastReplyId(replies: seq<Message>)
    requires replies != [] && forall m <- replies :: m.ToolReply?
    ensures multiset(ReplyIds(replies)) ==
            multiset(ReplyIds(replies[..|replies| - 1])) + multiset{replies[|replies| - 1].callId}
  {
  }

  lemma EmptyCount(pending: set<string>)
    requires multiset(pending) == multiset{}
    ensures pending == {}
  {
    assert forall p :: p in pending <==> multiset(pending)[p] > 0;
  }

  lemma {:induction false} BlocksScan(decode: P.Decoder, blocks: seq<Block>)
    requires Splits(decode, Flatten(blocks), blocks)
    ensures Scanned(decode, Flatten(blocks)) == Some(Scan({}, Elements(UsedIds(blocks))))
  {
    hide CallsOk, Ids, ReplyIds;
    if blocks == [] {
      assert Elements(UsedIds(blocks)) == {};
    } else {
      var n := |blocks| - 1;
      var front, b := blocks[..n], blocks[n];
      UniqueAppend(UsedIds(front), if b.Round? then Ids(b.calls) else []);
      BlocksScan(decode, front);
      if b.Round? {
        assert BlockOk(decode, b);
        var pending := ScanReplies(decode, Flatten(front), b.preface, b.calls, b.replies, Elements(UsedIds(front)));
        assert multiset(pending) == multiset{};
        EmptyCount(pending);
        assert Elements(UsedIds(blocks)) == Elements(UsedIds(front)) + Elements(Ids(b.calls));
      } else {
        ScanThen(decode, Flatten(front), Plain(b.role, b.content));
        assert UsedIds(blocks) == UsedIds(front);
      }
    }
  }

  /** The last block may still wait for `pending`. */
  ghost predicate Waiting(decode: P.Decoder, b: Block, pending: set<string>) {
    match b
    case Said(_, _) => pending == {}
    case Round(_, calls, replies) =>
      && CallsOk(decode, calls) && (forall m <- replies :: m.ToolReply?)
      && multiset(pending) + multiset(ReplyIds(replies)) == multiset(Ids(calls))
  }

  ghost predicate SplitsOpen(decode: P.Decoder, ms: seq<Message>, blocks: seq<Block>, s: Scan) {
    && Flatten(blocks) == ms && Unique(UsedIds(blocks)) && s.seen == Elements(UsedIds(blocks))
    && (forall i :: 0 <= i < |blocks| - 1 ==> BlockOk(decode, blocks[i]))
    && (if blocks == [] then s.pending == {} else Waiting(decode, blocks[|blocks| - 1], s.pending))
  }

  lemma {:induction false} ScanSplits(decode: P.Decoder, ms: seq<Message>) returns (blocks: seq<Block>)
    requires Scanned(decode, ms).Some?
    ensures SplitsOpen(decode, ms, blocks, Scanned(decode, ms).value)
  {
    hide CallsOk, SplitsOpen, Ids, Step;
    if ms == [] {
      blocks := [];
      NothingSplits(decode);
    } else {
      var n := |ms| - 1;
      var before := ScanSplits(decode, ms[..n]);
      var s := Scanned(decode, ms[..n]).value;
      SplitsWhat(decode, ms[..n], before, s);
      assert ms == ms[..n] + [ms[n]];
      blocks := StepSplits(decode, before, s, ms[n]);
    }
  }

  lemma NothingSplits(decode: P.Decoder)
    ensures SplitsOpen(decode, [], [], Scan({}, {}))
  {
    assert Elements([]) == {};
  }

  lemma SplitsWhat(decode: P.Decoder, ms: seq<Message>, blocks: seq<Block>, s: Scan)
    requires SplitsOpen(decode, ms, blocks, s)
    ensures Flatten(blocks) == ms
  {
  }

  lemma StepSplits(decode: P.Decoder, before: seq<Block>, s: Scan, m: Message) returns (blocks: seq<Block>)
    requires SplitsOpen(decode, Flatten(before), before, s) && Step(decode, s, m).Some?
    ensures SplitsOpen(decode, Flatten(before) + [m], blocks, Step(decode, s, m).value)
  {
    assert m.AssistantCalls? ==> Unique(Ids(m.calls));
    hide CallsOk, SplitsOpen, Ids;
    match m
    case Plain(role, content) => blocks := Opened(decode, before, s, Said(role, content));
    case AssistantCalls(preface, calls) =>
      blocks := Opened(decode, before, s, Round(preface, calls, []));
    case ToolReply(_, _) => blocks := Replied(decode, before, s, m);
  }

  /** A block completed by an empty `pending` set is a full block, and a new one may start. */
  lemma Opened(decode: P.Decoder, before: seq<Block>, s: Scan, b: Block) returns (blocks: seq<Block>)
    requires SplitsOpen(decode, Flatten(before), before, s) && s.pending == {}
    requires b.Round? ==>
               b.replies == [] && CallsOk(decode, b.calls) && Unique(Ids(b.calls)) && Elements(Ids(b.calls)) !! s.seen
    ensures SplitsOpen(decode, Flatten(before) + [Messages(b)[0]], blocks,
                       if b.Round? then Scan(Elements(Ids(b.calls)), s.seen + Elements(Ids(b.calls))) else s)
  {
    hide CallsOk;
    blocks := before + [b];
    assert blocks[..|before|] == before;
    var ids := if b.Round? then Ids(b.calls) else [];
    UniqueAppend(UsedIds(before), ids);
    assert Messages(b) == [Messages(b)[0]];
    if b.Round? {
      UniqueIsSet(Ids(b.calls));
      assert Elements(UsedIds(blocks)) == s.seen + Elements(ids);
    } else {
      assert UsedIds(blocks) == UsedIds(before);
    }
    forall i | 0 <= i < |blocks| - 1
      ensures BlockOk(decode, blocks[i])
    {
      assert blocks[i] == before[i];
      if i == |before| - 1 {
        Complete(decode, before[i]);
      }
    }
  }

  lemma Complete(decode: P.Decoder, b: Block)
    requires Waiting(decode, b, {})
    ensures BlockOk(decode, b)
  {
    hide CallsOk;
    assert multiset(var none: set<string> := {}; none) == multiset{};
  }

  lemma Replied(decode: P.Decoder, before: seq<Block>, s: Scan, m: Message) returns (blocks: seq<Block>)
    requires SplitsOpen(decode, Flatten(before), before, s) && m.ToolReply? && m.callId in s.pending
    ensures SplitsOpen(decode, Flatten(before) + [m], blocks, s.(pending := s.pending - {m.callId}))
  {
    hide CallsOk, BlockOk, Ids, Unique, Elements;
    var n := |before| - 1;
    var b := before[n];
    assert forall i :: 0 <= i < n ==> BlockOk(decode, before[i]);
    var b' := b.(replies := b.replies + [m]);
    blocks := before[..n] + [b'];
    assert blocks[..n] == before[..n];
    assert b'.replies[..|b.replies|] == b.replies;
    assert Messages(b') == Messages(b) + [m];
    assert Flatten(blocks) == Flatten(before[..n]) + Messages(b) + [m];
    OneReply(s.pending, multiset(ReplyIds(b.replies)), m.callId, multiset(Ids(b.calls)));
    assert UsedIds(blocks) == UsedIds(before);
    assert forall i :: 0 <= i < n ==> blocks[i] == before[i];
    assert multiset(ReplyIds(b'.replies)) == multiset(ReplyIds(b.replies)) + multiset{m.callId};
  }

  /** The set-based scan accepts a transcript exactly when it is a sequence of well-formed blocks. */
  lemma AcceptsExactlyTranscripts(decode: P.Decoder, ms: seq<Message>)
    ensures Accepted(decode, ms) <==> WellFormed(decode, ms)
  {
    if Accepted(decode, ms) {
      var blocks := ScanSplits(decode, ms);
      if blocks != [] {
        Complete(decode, blocks[|blocks| - 1]);
      }
      assert Splits(decode, ms, blocks);
    }
    if WellFormed(decode, ms) {
      var blocks :| Splits(decode, ms, blocks);
      BlocksScan(decode, blocks);
    }
  }

  // ---------- The method ----------

  function RenderCall(call: Call): SentCall
    requires ProviderAlias(call.name).Some?
  {
    SentCall(call.id, ProviderAlias(call.name).value, call.rawArguments)
  }

  ghost predicate RendersCalls(sent: seq<SentCall>, calls: seq<Call>) {
    |sent| == |calls| && forall i :: 0 <= i < |calls| ==>
          ProviderAlias(calls[i].name).Some? && sent[i] == RenderCall(calls[i])
  }

  ghost predicate Renders(sent: Sent, m: Message) {
    match m
    case Plain(role, content) => sent == SentPlain(role, content)
    case AssistantCalls(preface, calls) => sent.SentCalls? && sent.preface == preface && RendersCalls(sent.calls, calls)
    case ToolReply(id, content) => sent == SentReply(id, content)
  }

  lemma {:induction false} BytesGrow(calls: seq<Call>, n: nat)
    requires n <= |calls|
    ensures Bytes(calls[..n]) <= Bytes(calls)
    decreases |calls|
  {
    if n == |calls| {
      assert calls[..n] == calls;
    } else {
      assert calls[..|calls| - 1][..n] == calls[..n];
      BytesGrow(calls[..|calls| - 1], n);
    }
  }

  lemma {:induction false} IdsAt(calls: seq<Call>)
    ensures |Ids(calls)| == |calls| && forall i :: 0 <= i < |calls| ==> Ids(calls)[i] == calls[i].id
  {
    if calls != [] {
      IdsAt(calls[..|calls| - 1]);
    }
  }

  /** The running total and the ids of the calls taken so far. */
  ghost predicate TakenSoFar(decode: P.Decoder, calls: seq<Call>, seen: set<string>, total: nat, ids: set<string>,
                             sent: seq<SentCall>) {
    && total == Bytes(calls) <= P.MAX_TOTAL_ARGUMENT_BYTES && RendersCalls(sent, calls)
    && (forall k :: 0 <= k < |calls| ==> CallOk(decode, calls[k]))
    && ids == Elements(Ids(calls)) && ids !! seen && Unique(Ids(calls))
  }

  lemma TakeOne(decode: P.Decoder, calls: seq<Call>, seen: set<string>, total: nat, ids: set<string>,
                sent: seq<SentCall>, call: Call)
    requires TakenSoFar(decode, calls, seen, total, ids, sent)
    requires CallOk(decode, call) && total + ByteLength(call.rawArguments) <= P.MAX_TOTAL_ARGUMENT_BYTES
    requires call.id !in seen && call.id !in ids
    ensures ProviderAlias(call.name).Some?
    ensures TakenSoFar(decode, calls + [call], seen, total + ByteLength(call.rawArguments), ids + {call.id},
                       sent + [RenderCall(call)])
  {
    hide ByteLength, P.ValidMetadata, ProviderAlias;
    assert (calls + [call])[..|calls|] == calls;
    UniqueAppend(Ids(calls), [call.id]);
    assert Elements(Ids(calls) + [call.id]) == Elements(Ids(calls)) + {call.id};
  }

  lemma RefuseOne(decode: P.Decoder, calls: seq<Call>, seen: set<string>, i: nat)
    requires i < |calls|
    requires !CallOk(decode, calls[i]) || Bytes(calls[..i + 1]) > P.MAX_TOTAL_ARGUMENT_BYTES
             || calls[i].id in seen || calls[i].id in Elements(Ids(calls[..i]))
    ensures !(CallsOk(decode, calls) && Elements(Ids(calls)) !! seen)
  {
    hide CallOk, Bytes;
    BytesGrow(calls, i + 1);
    IdsAt(calls);
    IdsAt(calls[..i]);
    assert Ids(calls)[i] in Elements(Ids(calls));
    if calls[i].id in Elements(Ids(calls[..i])) {
      var k :| 0 <= k < i && Ids(calls[..i])[k] == calls[i].id;
      assert Ids(calls)[k] == Ids(calls)[i];
    }
  }

  /** The calls of one assistant message, with the running byte total and the ids seen so far. */
  method TakeCalls(decode: P.Decoder, calls: seq<Call>, seen: set<string>)
    returns (r: Option<seq<SentCall>>, ids: set<string>)
    ensures r.Some? <==> CallsOk(decode, calls) && Elements(Ids(calls)) !! seen
    ensures r.Some? ==> ids == Elements(Ids(calls)) && RendersCalls(r.value, calls)
  {
    hide CallOk, Bytes, Ids, RendersCalls, Unique, ByteLength, Elements, RenderCall;
    ids := {};
    if |calls| == 0 || |calls| > P.MAX_CALLS {
      return None, ids;
    }
    r, ids := TakeEach(decode, calls, seen);
  }

  lemma NothingTaken(decode: P.Decoder, seen: set<string>)
    ensures TakenSoFar(decode, [], seen, 0, {}, [])
  {
    assert Elements([]) == {};
  }

  lemma BytesThen(calls: seq<Call>, call: Call)
    ensures Bytes(calls + [call]) == Bytes(calls) + ByteLength(call.rawArguments)
  {
    assert (calls + [call])[..|calls|] == calls;
  }

  /** The walk over the calls. */
  method TakeEach(decode: P.Decoder, calls: seq<Call>, seen: set<string>)
    returns (r: Option<seq<SentCall>>, ids: set<string>)
    ensures r.None? ==> !(CallsOk(decode, calls) && Elements(Ids(calls)) !! seen)
    ensures r.Some? ==> exists total :: TakenSoFar(decode, calls, seen, total, ids, r.value)
  {
    hide CallOk, Bytes, Ids, RendersCalls, Unique, ByteLength, Elements, RenderCall, CallsOk;
    ids := {};
    var total: nat, sent: seq<SentCall>, i := 0, [], 0;
    NothingTaken(decode, seen);
    assert calls[..0] == [];
    while i < |calls|
      invariant 0 <= i <= |calls| && TakenSoFar(decode, calls[..i], seen, total, ids, sent)
    {
      var call := calls[i];
      assert calls[..i + 1] == calls[..i] + [call];
      BytesThen(calls[..i], call);
      if !CallOk(decode, call) || total + ByteLength(call.rawArguments) > P.MAX_TOTAL_ARGUMENT_BYTES || call.id in seen
         || call.id in ids {
        RefuseOne(decode, calls, seen, i);
        return None, ids;
      }
      TakeOne(decode, calls[..i], seen, total, ids, sent, call);
      total, sent, ids := total + ByteLength(call.rawArguments), sent + [RenderCall(call)], ids + {call.id};
      i := i + 1;
    }
    assert calls[..i] == calls;
    r := Some(sent);
  }

  lemma {:induction false} RejectedForGood(decode: P.Decoder, ms: seq<Message>, n: nat)
    requires n <= |ms| && Scanned(decode, ms[..n]).None?
    ensures Scanned(decode, ms).None?
    decreases |ms|
  {
    hide Step;
    if n == |ms| {
      assert ms[..n] == ms;
    } else {
      assert ms[..|ms| - 1][..n] == ms[..n];
      RejectedForGood(decode, ms[..|ms| - 1], n);
    }
  }

  /** One message against the two sets. */
  method SendOne(decode: P.Decoder, m: Message, pending: set<string>, seen: set<string>)
    returns (one: Option<Sent>, pending': set<string>, seen': set<string>)
    ensures Step(decode, Scan(pending, seen), m) == if one.Some? then Some(Scan(pending', seen')) else None
    ensures one.Some? ==> Renders(one.value, m)
  {
    hide CallsOk, RendersCalls, Ids;
    one, pending', seen' := None, pending, seen;
    match m {
      case ToolReply(id, content) =>
        if id in pending {
          one, pending' := Some(SentReply(id, content)), pending - {id};
        }
      case Plain(role, content) =>
        if pending == {} {
          one := Some(SentPlain(role, content));
        }
      case AssistantCalls(preface, calls) =>
        if pending == {} {
          var taken, ids := TakeCalls(decode, calls, seen);
          if taken.Some? {
            one, pending', seen' := Some(SentCalls(preface, taken.value)), ids, seen + ids;
          }
        }
    }
  }

  /** The request's messages: accepted exactly for well-formed transcripts, and sent one for one. */
  method Send(decode: P.Decoder, ms: seq<Message>) returns (r: Option<seq<Sent>>)
    ensures r.Some? <==> WellFormed(decode, ms)
    ensures r.Some? ==> |r.value| == |ms| && forall i :: 0 <= i < |ms| ==> Renders(r.value[i], ms[i])
  {
    hide WellFormed, Renders, Step;
    AcceptsExactlyTranscripts(decode, ms);
    var pending: set<string>, seen: set<string>, sent: seq<Sent>, i := {}, {}, [], 0;
    while i < |ms|
      invariant 0 <= i <= |ms| && |sent| == i
      invariant Scanned(decode, ms[..i]) == Some(Scan(pending, seen))
      invariant forall k :: 0 <= k < i ==> Renders(sent[k], ms[k])
    {
      ScanThen(decode, ms[..i], ms[i]);
      assert ms[..i + 1] == ms[..i] + [ms[i]];
      var one;
      one, pending, seen := SendOne(decode, ms[i], pending, seen);
      if one.None? {
        RejectedForGood(decode, ms, i + 1);
        return None;
      }
      sent, i := sent + [one.value], i + 1;
    }
    assert ms[..i] == ms;
    r := if pending == {} then Some(sent) else None;
  }

  /** What the alias check is for: the two dotted names of the program's own tools, and foreign names as they are. */
  function IntendedAlias(name: string): Option<Alias> {
    if name == "session.search" then Some(Alias("session_search"))
    else if name == "session.rename" then Some(Alias("session_rename"))
    else if ForeignName(name) then Some(Alias(name)) else None
  }

  /** The check does that exactly for names no plain object inherits; of those only `constructor` fits the pattern. */
  lemma AliasCondition(name: string)
    ensures ProviderAlias(name) == IntendedAlias(name) <==> name !in INHERITED
    ensures name in INHERITED && ForeignName(name) <==> name == "constructor"
  {
    hide NameStart;
    if name in INHERITED && name != "constructor" {
      BadLetters(name);
    } else if name == "constructor" {
      ConstructorFits();
    }
  }

  lemma BadLetters(name: string)
    requires name in INHERITED && name != "constructor"
    ensures !ForeignName(name)
  {
    var k := match name
             case "isPrototypeOf" => 2
             case "propertyIsEnumerable" => 8
             case "toLocaleString" => 2
             case "toString" => 2
             case "valueOf" => 5
             case "hasOwnProperty" => 3
             case _ => 0;
    assert k < |name| && !NameStart(name[k]) && (k > 0 ==> name[k] !in {'_', '-'});
  }

  lemma ConstructorFits()
    ensures ForeignName("constructor")
  {
  }
}
