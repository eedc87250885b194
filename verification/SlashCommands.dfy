/** The slash-command parser: a quote and escape automaton with an exact inverse. */
module SlashCommands {
  import opened Wrappers
  import opened Text

  datatype Parsed = Parsed(name: string, args: seq<string>, raw: string)

  datatype Malformed = Malformed(raw: string)

  // ---------- Tokens ----------

  datatype Scan = Scan(tokens: seq<string>, current: string, inQuotes: bool, escaped: bool, hasToken: bool)

  const START := Scan([], "", false, false, false)

  function Step(s: Scan, c: char): Scan {
    if s.escaped then s.(current := s.current + [c], escaped := false, hasToken := true)
    else if s.inQuotes && c == '\\' then s.(escaped := true)
    else if c == '"' then s.(inQuotes := !s.inQuotes, hasToken := true)
    else if !s.inQuotes && IsSpace(c) then
      if s.hasToken then s.(tokens := s.tokens + [s.current], current := "", hasToken := false) else s
    else s.(current := s.current + [c], hasToken := true)
  }

  function Run(s: Scan, text: string): Scan
    decreases text
  {
    if text == "" then s else Run(Step(s, text[0]), text[1..])
  }

  function Close(s: Scan): seq<string> {
    if s.hasToken then s.tokens + [s.current] else s.tokens
  }

  function Split(body: string): seq<string> {
    Close(Run(START, body))
  }

  method SplitArgs(body: string) returns (tokens: seq<string>)
    ensures tokens == Split(body)
  {
    var current, inQuotes, escaped, hasToken := "", false, false, false;
    tokens := [];
    var i := 0;
    while i < |body|
      invariant 0 <= i <= |body|
      invariant Run(Scan(tokens, current, inQuotes, escaped, hasToken), body[i..]) == Run(START, body)
    {
      var c := body[i];
      assert body[i..][0] == c && body[i..][1..] == body[i + 1..];
      ghost var s := Scan(tokens, current, inQuotes, escaped, hasToken);
      if escaped {
        current, escaped, hasToken := current + [c], false, true;
      } else if inQuotes && c == '\\' {
        escaped := true;
      } else if c == '"' {
        inQuotes, hasToken := !inQuotes, true;
      } else if !inQuotes && IsSpace(c) {
        if hasToken {
          tokens, current, hasToken := tokens + [current], "", false;
        }
      } else {
        current, hasToken := current + [c], true;
      }
      assert Step(s, c) == Scan(tokens, current, inQuotes, escaped, hasToken);
      i := i + 1;
    }
    if hasToken {
      tokens := tokens + [current];
    }
  }

  // ---------- Commands ----------

  predicate NameStart(c: char) {
    'a' <= c <= 'z'
  }

  predicate ValidName(name: string) {
    && name != "" && NameStart(name[0])
    && forall i :: 0 <= i < |name| ==> NameStart(name[i]) || '0' <= name[i] <= '9' || name[i] == '-'
  }

  function Parse(raw: string): Result<Parsed, Malformed> {
    var text := Trim(raw);
    if !("/" <= text) then Fail(Malformed(raw))
    else
      var body := Trim(text[1..]);
      var tokens := Split(body);
      if body == "" || tokens == [] then Fail(Malformed(raw))
      else
        var name := Lower(tokens[0]);
        if ValidName(name) then Ok(Parsed(name, tokens[1..], raw)) else Fail(Malformed(raw))
  }

  method ParseSlashCommand(raw: string) returns (r: Result<Parsed, Malformed>)
    ensures r == Parse(raw)
  {
    hide Split, Trim, ValidName;
    var text := Trim(raw);
    if !("/" <= text) {
      return Fail(Malformed(raw));
    }
    var body := Trim(text[1..]);
    if body == "" {
      return Fail(Malformed(raw));
    }
    var tokens := SplitArgs(body);
    if |tokens| == 0 {
      return Fail(Malformed(raw));
    }
    var name := Lower(tokens[0]);
    r := if ValidName(name) then Ok(Parsed(name, tokens[1..], raw)) else Fail(Malformed(raw));
  }

  // ---------- Printing ----------

  function Escape(s: string): string {
    if s == "" then ""
    else (if s[0] == '"' || s[0] == '\\' then ['\\', s[0]] else [s[0]]) + Escape(s[1..])
  }

  function Quote(s: string): string {
    "\"" + Escape(s) + "\""
  }

  /** What may stand without quotes. */
  predicate Bare(s: string) {
    s != "" && forall i :: 0 <= i < |s| ==> s[i] != '"' && !IsSpace(s[i])
  }

  /** A token shown quoted, or as it is. */
  datatype Shown = Shown(token: string, quoted: bool)

  predicate Showable(t: Shown) {
    t.quoted || Bare(t.token)
  }

  function Show(t: Shown): string {
    if t.quoted then Quote(t.token) else t.token
  }

  /** White space and then a token, for every token. */
  function ShowAll(gap: string, ts: seq<Shown>): string {
    if ts == [] then "" else gap + Show(ts[0]) + ShowAll(gap, ts[1..])
  }

  predicate Gap(s: string) {
    s != "" && forall i :: 0 <= i < |s| ==> IsSpace(s[i])
  }

  function Tokens(ts: seq<Shown>): seq<string> {
    seq(|ts|, i requires 0 <= i < |ts| => ts[i].token)
  }

  // ---------- The automaton over shown text ----------

  lemma {:induction false} RunJoins(s: Scan, a: string, b: string)
    ensures Run(s, a + b) == Run(Run(s, a), b)
    decreases a
  {
    hide Step;
    if a == "" {
      assert a + b == b;
    } else {
      assert (a + b)[1..] == a[1..] + b;
      RunJoins(Step(s, a[0]), a[1..], b);
    }
  }

  lemma RunHead(s: Scan, c: char, head: string)
    requires s.inQuotes && !s.escaped && s.hasToken
    requires head == if c == '"' || c == '\\' then ['\\', c] else [c]
    ensures Run(s, head) == s.(current := s.current + [c])
  {
    var one := Step(s, head[0]);
    assert Run(s, head) == Run(one, head[1..]);
    if |head| == 2 {
      assert head[1..] == [c];
      assert Run(one, [c]) == Run(Step(one, c), [c][1..]);
      assert [c][1..] == "";
    } else {
      assert head[1..] == "";
    }
  }

  lemma {:induction false} RunEscaped(s: Scan, a: string)
    requires s.inQuotes && !s.escaped && s.hasToken
    ensures Run(s, Escape(a)) == s.(current := s.current + a)
    decreases a
  {
    if a == "" {
      assert s.current + a == s.current;
    } else {
      var head := if a[0] == '"' || a[0] == '\\' then ['\\', a[0]] else [a[0]];
      var next := s.(current := s.current + [a[0]]);
      RunHead(s, a[0], head);
      RunJoins(s, head, Escape(a[1..]));
      RunEscaped(next, a[1..]);
      assert s.current + a == next.current + a[1..];
    }
  }

  lemma {:induction false} RunBare(s: Scan, a: string)
    requires !s.inQuotes && !s.escaped && forall i :: 0 <= i < |a| ==> a[i] != '"' && !IsSpace(a[i])
    ensures Run(s, a) == s.(current := s.current + a, hasToken := s.hasToken || a != "")
    decreases a
  {
    hide IsSpace;
    if a == "" {
      assert s.current + a == s.current;
    } else {
      RunBare(Step(s, a[0]), a[1..]);
      assert s.current + a == s.current + [a[0]] + a[1..];
    }
  }

  lemma {:induction false} RunGap(s: Scan, a: string)
    requires !s.inQuotes && !s.escaped && forall i :: 0 <= i < |a| ==> IsSpace(a[i])
    requires !s.hasToken ==> s.current == ""
    ensures a != "" ==> Run(s, a) == Scan(Close(s), "", false, false, false)
    decreases a
  {
    if a != "" {
      RunGap(Step(s, a[0]), a[1..]);
    }
  }

  /** A shown token is read back whole. */
  lemma RunShown(s: Scan, t: Shown)
    requires Showable(t) && s == Scan(s.tokens, "", false, false, false)
    ensures Run(s, Show(t)) == Scan(s.tokens, t.token, false, false, true)
  {
    hide IsSpace;
    if t.quoted {
      var inside := Step(s, '"');
      RunJoins(s, "\"" + Escape(t.token), "\"");
      RunJoins(s, "\"", Escape(t.token));
      assert Run(s, "\"") == inside by { assert "\""[1..] == ""; }
      RunEscaped(inside, t.token);
      assert "" + t.token == t.token;
      assert "\""[1..] == "";
      assert Run(inside.(current := t.token), "\"") == Step(inside.(current := t.token), '"');
    } else {
      RunBare(s, t.token);
      assert "" + t.token == t.token;
    }
  }

  lemma {:induction false} RunShownAll(s: Scan, gap: string, ts: seq<Shown>)
    requires Gap(gap) && (forall t <- ts :: Showable(t)) && s.hasToken && !s.inQuotes && !s.escaped
    ensures var r := Run(s, ShowAll(gap, ts));
            r.hasToken && Close(r) == Close(s) + Tokens(ts)
    decreases ts
  {
    hide Step, IsSpace, Show, Showable;
    if ts == [] {
      assert Close(s) + Tokens(ts) == Close(s);
    } else {
      RunJoins(s, gap + Show(ts[0]), ShowAll(gap, ts[1..]));
      RunJoins(s, gap, Show(ts[0]));
      RunGap(s, gap);
      RunShown(Run(s, gap), ts[0]);
      var next := Run(Run(s, gap), Show(ts[0]));
      RunShownAll(next, gap, ts[1..]);
      assert Close(s) + Tokens(ts) == Close(next) + Tokens(ts[1..]);
    }
  }

  /** Tokens shown in any mix of styles, with any white space between, come back as they were. */
  lemma SplitShown(first: Shown, gap: string, ts: seq<Shown>)
    requires Showable(first) && Gap(gap) && forall t <- ts :: Showable(t)
    ensures Split(Show(first) + ShowAll(gap, ts)) == [first.token] + Tokens(ts)
  {
    hide Step, Showable, Show, Gap, ShowAll, Tokens;
    RunJoins(START, Show(first), ShowAll(gap, ts));
    RunShown(START, first);
    RunShownAll(Run(START, Show(first)), gap, ts);
  }

  // ---------- Whole commands ----------

  /** Every argument quoted. */
  function Quoted(args: seq<string>): seq<Shown> {
    seq(|args|, i requires 0 <= i < |args| => Shown(args[i], true))
  }

  function Render(name: string, args: seq<string>): string {
    "/" + name + ShowAll(" ", Quoted(args))
  }

  lemma {:induction false} LowerKeeps(name: string)
    requires ValidName(name)
    ensures Lower(name) == name
  {
  }

  lemma TrimKeeps(s: string)
    requires s != "" ==> !IsSpace(s[0]) && !IsSpace(s[|s| - 1])
    ensures Trim(s) == s
  {
  }

  lemma {:induction false} LastShown(ts: seq<Shown>)
    requires ts != [] && forall t <- ts :: t.quoted
    ensures var s := ShowAll(" ", ts); s != "" && s[|s| - 1] == '"'
    decreases ts
  {
    if |ts| > 1 {
      LastShown(ts[1..]);
    }
  }

  /** The inverse law: any valid name and any arguments, also empty ones or full of quotes, backslashes and blanks. */
  lemma ParseRender(name: string, args: seq<string>)
    requires ValidName(name)
    ensures Parse(Render(name, args)) == Ok(Parsed(name, args, Render(name, args)))
  {
    hide Split, ShowAll;
    var ts := Quoted(args);
    var body := name + ShowAll(" ", ts);
    NameIsBare(name);
    SplitShown(Shown(name, false), " ", ts);
    assert Tokens(ts) == args;
    BodyEnds(name, ts);
    var text := Render(name, args);
    assert text == "/" + body && text[1..] == body && text[0] == '/' && text[|text| - 1] == body[|body| - 1];
    assert "/" <= text;
    TrimKeeps(text);
    TrimKeeps(body);
    LowerKeeps(name);
    assert ([name] + args)[1..] == args;
  }

  lemma NameIsBare(name: string)
    requires ValidName(name)
    ensures Bare(name)
  {
  }

  lemma BodyEnds(name: string, ts: seq<Shown>)
    requires ValidName(name) && forall t <- ts :: t.quoted
    ensures var body := name + ShowAll(" ", ts); body != "" && !IsSpace(body[0]) && !IsSpace(body[|body| - 1])
  {
    if ts != [] {
      LastShown(ts);
    } else {
      assert name + ShowAll(" ", ts) == name;
    }
  }

  /** So printing what was parsed and parsing again changes nothing. */
  lemma Reprint(raw: string)
    requires Parse(raw).Ok?
    ensures var p := Parse(raw).value;
            Parse(Render(p.name, p.args)) == Ok(p.(raw := Render(p.name, p.args)))
  {
    hide Split, Trim, Render;
    var p := Parse(raw).value;
    ParseRender(p.name, p.args);
  }

  /** An unclosed quote takes the rest of the input as its token. */
  lemma UnclosedQuote(a: string)
    ensures Split("\"" + Escape(a)) == [a]
  {
    var inside := Step(START, '"');
    RunJoins(START, "\"", Escape(a));
    assert Run(START, "\"") == inside by { assert "\""[1..] == ""; }
    RunEscaped(inside, a);
    assert "" + a == a;
  }

  /** A lower-case letter, then lower-case letters, digits and dashes. */
  predicate Word(name: string) {
    && name != "" && 'a' <= name[0] <= 'z'
    && forall c <- name :: 'a' <= c <= 'z' || '0' <= c <= '9' || c == '-'
  }

  predicate Blank(s: string) {
    forall i :: 0 <= i < |s| ==> IsSpace(s[i])
  }

  lemma {:induction false} TrimStartBlank(gap: string, s: string)
    requires Blank(gap) && s != "" && !IsSpace(s[0])
    ensures TrimStart(gap + s) == s
  {
    if gap == "" {
      assert gap + s == s;
    } else {
      assert (gap + s)[1..] == gap[1..] + s;
      TrimStartBlank(gap[1..], s);
    }
  }

  lemma {:induction false} TrimEndBlank(s: string, gap: string)
    requires Blank(gap) && s != "" && !IsSpace(s[|s| - 1])
    ensures TrimEnd(s + gap) == s
  {
    if gap == "" {
      assert s + gap == s;
    } else {
      var n := |gap| - 1;
      assert (s + gap)[..|s + gap| - 1] == s + gap[..n];
      assert (s + gap)[|s + gap| - 1] == gap[n];
      TrimEndBlank(s, gap[..n]);
    }
  }

  /** A slash and an unquoted word are a command exactly when the word is a name, in whatever case and white space. */
  lemma NamedExactly(before: string, word: string, args: seq<string>, after: string)
    requires Blank(before) && Blank(after) && Bare(word)
    ensures var raw := before + ("/" + word + ShowAll(" ", Quoted(args))) + after;
            Parse(raw) == if Word(Lower(word)) then Ok(Parsed(Lower(word), args, raw)) else Fail(Malformed(raw))
  {
    hide Split, ShowAll;
    var ts := Quoted(args);
    var body := word + ShowAll(" ", ts);
    SplitShown(Shown(word, false), " ", ts);
    assert Tokens(ts) == args;
    WordEnds(word, ts);
    var text := "/" + word + ShowAll(" ", ts);
    assert text == "/" + body && text[1..] == body && text[0] == '/' && text[|text| - 1] == body[|body| - 1];
    assert "/" <= text;
    Surrounded(before, text, after);
    TrimKeeps(body);
    assert ([word] + args)[1..] == args;
    NameIsWord(Lower(word));
  }

  lemma NameIsWord(name: string)
    ensures ValidName(name) <==> Word(name)
  {
    assert ValidName(name) ==> forall c <- name :: 'a' <= c <= 'z' || '0' <= c <= '9' || c == '-';
    if Word(name) {
      assert forall i :: 0 <= i < |name| ==> name[i] in name;
    }
  }

  lemma Surrounded(before: string, text: string, after: string)
    requires Blank(before) && Blank(after) && text != "" && !IsSpace(text[0]) && !IsSpace(text[|text| - 1])
    ensures Trim(before + text + after) == text
  {
    var tail := text + after;
    assert before + text + after == before + tail && tail[0] == text[0];
    TrimStartBlank(before, tail);
    TrimEndBlank(text, after);
  }

  lemma WordEnds(word: string, ts: seq<Shown>)
    requires Bare(word) && forall t <- ts :: t.quoted
    ensures var body := word + ShowAll(" ", ts); body != "" && !IsSpace(body[0]) && !IsSpace(body[|body| - 1])
  {
    if ts != [] {
      LastShown(ts);
    } else {
      assert word + ShowAll(" ", ts) == word;
    }
  }
}
