/** Identity of a claim: the normalized triple. */
module ClaimIdentity {
  import opened Text

  datatype Triple = Triple(subj: string, pred: string, obj: string)

  predicate IsQuote(c: char) {
    c in ['\'', '\"', '\U{201C}', '\U{201D}', '\U{2018}', '\U{2019}', '`']
  }

  predicate IsGap(c: char) {
    IsSpace(c) || c == '_'
  }

  /** Replaces every run of white space and underscores by one space. */
  function CollapseGaps(s: string): string {
    if s == "" then ""
    else if !IsGap(s[0]) then [s[0]] + CollapseGaps(s[1..])
    else if |s| > 1 && IsGap(s[1]) then CollapseGaps(s[1..])
    else " " + CollapseGaps(s[1..])
  }

  function StripLeadingQuotes(s: string): string {
    if s != "" && IsQuote(s[0]) then StripLeadingQuotes(s[1..]) else s
  }

  function StripTrailingQuotes(s: string): string {
    if s != "" && IsQuote(s[|s| - 1]) then StripTrailingQuotes(s[..|s| - 1]) else s
  }

  function NormalizeTripleField(value: string): string {
    Trim(StripTrailingQuotes(StripLeadingQuotes(CollapseGaps(Lower(Trim(value))))))
  }

  /** The normalized fields of a triple and the canonical key they join to. */
  datatype Norm = Norm(key: string, subj: string, pred: string, obj: string)

  function NormOf(t: Triple): Norm {
    var s, p, o := NormalizeTripleField(t.subj), NormalizeTripleField(t.pred), NormalizeTripleField(t.obj);
    Norm(JoinKey(s, p, o), s, p, o)
  }

  function JoinKey(s: string, p: string, o: string): string {
    s + "|" + p + "|" + o
  }

  // ---------- Which texts are normalized fields ----------

  /** Lower case, every gap a single space. */
  ghost predicate Tidy(s: string) {
    && (forall i :: 0 <= i < |s| ==> LowerChar(s[i]) == s[i] && (IsGap(s[i]) ==> s[i] == ' '))
    && (forall i :: 0 <= i < |s| - 1 ==> s[i] != ' ' || s[i + 1] != ' ')
  }

  /** Tidy, with no space at either end. */
  ghost predicate Canonical(s: string) {
    Tidy(s) && (s != "" ==> s[0] != ' ' && s[|s| - 1] != ' ')
  }

  lemma {:induction false} CollapseTidies(s: string)
    requires forall i :: 0 <= i < |s| ==> LowerChar(s[i]) == s[i]
    ensures Tidy(CollapseGaps(s)) && (s == "" <==> CollapseGaps(s) == "")
    ensures s != "" ==> (CollapseGaps(s)[0] == ' ' <==> IsGap(s[0]))
  {
    hide IsSpace;
    assert IsGap(' ') by { SpaceIsGap(); }
    if s != "" {
      CollapseTidies(s[1..]);
    }
  }

  lemma SpaceIsGap()
    ensures IsGap(' ') && LowerChar(' ') == ' ' && !IsQuote(' ')
    ensures !IsGap('"') && LowerChar('"') == '"' && IsQuote('"')
  {
  }

  lemma {:induction false} CollapseKeepsTidy(s: string)
    requires Tidy(s)
    ensures CollapseGaps(s) == s
  {
    hide IsSpace;
    SpaceIsGap();
    if s != "" {
      CollapseKeepsTidy(s[1..]);
      assert s == [s[0]] + s[1..];
    }
  }

  /** Cutting at the ends keeps a text tidy; trimming leaves no space there. */
  lemma {:induction false} CutsKeepTidy(s: string)
    requires Tidy(s)
    ensures Tidy(StripLeadingQuotes(s)) && Tidy(StripTrailingQuotes(s)) && Tidy(TrimStart(s)) && Tidy(TrimEnd(s))
    ensures TrimStart(s) != "" ==> !IsSpace(TrimStart(s)[0])
    ensures TrimEnd(s) != "" ==> TrimEnd(s) <= s && !IsSpace(TrimEnd(s)[|TrimEnd(s)| - 1])
  {
    hide IsSpace, IsQuote;
    if s != "" {
      CutsKeepTidy(s[1..]);
      CutsKeepTidy(s[..|s| - 1]);
    }
  }

  /** Every normalized field is canonical. */
  lemma NormalizedIsCanonical(value: string)
    ensures Canonical(NormalizeTripleField(value))
  {
    hide IsSpace, IsQuote, Tidy, StripLeadingQuotes, StripTrailingQuotes, TrimStart, TrimEnd, CollapseGaps;
    var lowered := Lower(Trim(value));
    LowerTwice(Trim(value));
    CollapseTidies(lowered);
    var x := CollapseGaps(lowered);
    CutsKeepTidy(x);
    CutsKeepTidy(StripLeadingQuotes(x));
    var y := StripTrailingQuotes(StripLeadingQuotes(x));
    CutsKeepTidy(y);
    CutsKeepTidy(TrimStart(y));
    SpaceIsSpace();
  }

  lemma SpaceIsSpace()
    ensures IsSpace(' ') && !IsSpace('"')
  {
  }

  lemma LowerTwice(s: string)
    ensures forall i :: 0 <= i < |Lower(s)| ==> LowerChar(Lower(s)[i]) == Lower(s)[i]
  {
  }

  // ---------- What normalizing keeps ----------

  /** The runs of characters between gaps. */
  function Words(s: string): (words: seq<string>)
    ensures s != "" && !IsGap(s[0]) ==> words != []
  {
    if s == "" then []
    else
      var rest := Words(s[1..]);
      if IsGap(s[0]) then rest
      else if |s| == 1 || IsGap(s[1]) then [[s[0]]] + rest
      else [[s[0]] + rest[0]] + rest[1..]
  }

  lemma {:induction false} CollapseKeepsWords(s: string)
    ensures Words(CollapseGaps(s)) == Words(s)
    ensures s != "" ==> CollapseGaps(s) != "" && (IsGap(CollapseGaps(s)[0]) <==> IsGap(s[0]))
  {
    hide IsSpace;
    assert IsGap(' ') by { SpaceIsGap(); }
    if s != "" {
      var rest := CollapseGaps(s[1..]);
      CollapseKeepsWords(s[1..]);
      if !IsGap(s[0]) {
        assert ([s[0]] + rest)[1..] == rest;
      } else {
        assert (" " + rest)[1..] == rest;
      }
    }
  }

  lemma {:induction false} TrimStartKeepsWords(s: string)
    ensures Words(TrimStart(s)) == Words(s)
  {
    if s != "" && IsSpace(s[0]) {
      TrimStartKeepsWords(s[1..]);
    }
  }

  lemma {:induction false} GapAtEnd(s: string, c: char)
    requires IsGap(c)
    ensures Words(s + [c]) == Words(s)
  {
    hide IsGap;
    if s == "" {
      assert s + [c] == [c] && [c][1..] == "";
    } else {
      assert (s + [c])[1..] == s[1..] + [c];
      GapAtEnd(s[1..], c);
      assert |s| > 1 ==> (s + [c])[1] == s[1];
    }
  }

  lemma {:induction false} TrimEndKeepsWords(s: string)
    ensures Words(TrimEnd(s)) == Words(s)
  {
    if s != "" && IsSpace(s[|s| - 1]) {
      var n := |s| - 1;
      TrimEndKeepsWords(s[..n]);
      GapAtEnd(s[..n], s[n]);
      assert s == s[..n] + [s[n]];
    }
  }

  predicate Quoteless(s: string) {
    forall i :: 0 <= i < |s| ==> !IsQuote(s[i])
  }

  lemma LowerSpares(c: char)
    ensures IsSpace(LowerChar(c)) == IsSpace(c) && IsQuote(LowerChar(c)) == IsQuote(c)
  {
  }

  lemma {:induction false} LowerTrimsStart(s: string)
    ensures Lower(TrimStart(s)) == TrimStart(Lower(s))
  {
    hide IsSpace, LowerChar;
    if s != "" {
      LowerSpares(s[0]);
      assert Lower(s)[1..] == Lower(s[1..]);
      LowerTrimsStart(s[1..]);
    }
  }

  lemma {:induction false} LowerTrimsEnd(s: string)
    ensures Lower(TrimEnd(s)) == TrimEnd(Lower(s))
  {
    hide IsSpace, LowerChar;
    if s != "" {
      var n := |s| - 1;
      LowerSpares(s[n]);
      assert Lower(s)[..n] == Lower(s[..n]);
      LowerTrimsEnd(s[..n]);
    }
  }

  lemma {:induction false} CollapseBringsNoQuote(s: string)
    requires Quoteless(s)
    ensures Quoteless(CollapseGaps(s))
  {
    hide IsSpace, IsQuote;
    assert !IsQuote(' ') by { SpaceIsGap(); }
    if s != "" {
      CollapseBringsNoQuote(s[1..]);
    }
  }

  lemma {:induction false} TrimBringsNoQuote(s: string)
    requires Quoteless(s)
    ensures Quoteless(TrimStart(s)) && Quoteless(TrimEnd(s))
  {
    hide IsSpace, IsQuote;
    if s != "" {
      TrimBringsNoQuote(s[1..]);
      TrimBringsNoQuote(s[..|s| - 1]);
    }
  }

  lemma LowerBringsNoQuote(s: string)
    requires Quoteless(s)
    ensures Quoteless(Lower(s))
  {
    hide IsSpace, IsQuote, LowerChar;
    forall i | 0 <= i < |s|
      ensures !IsQuote(Lower(s)[i])
    {
      LowerSpares(s[i]);
    }
  }

  /** Without quotes a field keeps its words, in lower case. */
  lemma WordsAreKept(value: string)
    requires Quoteless(value)
    ensures Words(NormalizeTripleField(value)) == Words(Lower(value))
  {
    hide IsSpace, Words, TrimStart, TrimEnd, CollapseGaps;
    var lowered := Lower(Trim(value));
    LowerTrimsStart(value);
    LowerTrimsEnd(TrimStart(value));
    TrimStartKeepsWords(Lower(value));
    TrimEndKeepsWords(TrimStart(Lower(value)));
    CollapseKeepsWords(lowered);
    var x := CollapseGaps(lowered);
    TrimBringsNoQuote(value);
    TrimBringsNoQuote(TrimStart(value));
    LowerBringsNoQuote(Trim(value));
    CollapseBringsNoQuote(lowered);
    assert StripLeadingQuotes(x) == x && StripTrailingQuotes(x) == x;
    TrimStartKeepsWords(x);
    TrimEndKeepsWords(TrimStart(x));
  }

  /** The words of a canonical text, joined by single spaces, are the text. */
  function Spaced(words: seq<string>): string {
    if words == [] then "" else if |words| == 1 then words[0] else words[0] + " " + Spaced(words[1..])
  }

  lemma {:induction false} CanonicalIsSpaced(s: string)
    requires Canonical(s)
    ensures Spaced(Words(s)) == s
    ensures s != "" ==> Words(s) != []
  {
    hide IsSpace;
    assert IsGap(' ') by { SpaceIsGap(); }
    if s == "" {
    } else if |s| == 1 {
      assert Words(s[1..]) == [];
    } else if s[1] == ' ' {
      var t := s[2..];
      assert s[1..][0] == ' ' && s[1..][1..] == t && s == [s[0]] + " " + t;
      CanonicalTail(s, 2);
      CanonicalIsSpaced(t);
    } else {
      CanonicalTail(s, 1);
      CanonicalIsSpaced(s[1..]);
      var words := Words(s[1..]);
      assert ([[s[0]] + words[0]] + words[1..])[1..] == words[1..];
      assert s == [s[0]] + s[1..];
    }
  }

  lemma CanonicalTail(s: string, n: nat)
    requires Canonical(s) && n < |s| && s[n] != ' '
    ensures Canonical(s[n..])
  {
    hide IsSpace;
    var t := s[n..];
    assert forall i :: 0 <= i < |t| ==> t[i] == s[n + i];
  }

  /** Fields without quotes have the same identity exactly when they have the same words, whatever their case. */
  lemma SameWordsSameField(a: string, b: string)
    requires Quoteless(a) && Quoteless(b)
    ensures NormalizeTripleField(a) == NormalizeTripleField(b) <==> Words(Lower(a)) == Words(Lower(b))
  {
    hide NormalizeTripleField, Words, Canonical;
    WordsAreKept(a);
    WordsAreKept(b);
    NormalizedIsCanonical(a);
    NormalizedIsCanonical(b);
    CanonicalIsSpaced(NormalizeTripleField(a));
    CanonicalIsSpaced(NormalizeTripleField(b));
  }

  /** And every canonical text is the normalized form of some value: quotes and a space on both sides protect it. */
  lemma CanonicalIsNormalized(x: string) returns (value: string)
    requires Canonical(x)
    ensures NormalizeTripleField(value) == x
  {
    if x == "" {
      value := "";
    } else {
      value := Quoted(x);
      hide Canonical, Quoted, CollapseGaps, StripLeadingQuotes, StripTrailingQuotes, TrimStart, TrimEnd;
      QuotedIsPlain(x);
      QuotesStrip(x);
      CanonicalTrims(x);
    }
  }

  function Quoted(x: string): string {
    "\" " + x + " \""
  }

  lemma QuotedIsPlain(x: string)
    requires Canonical(x) && x != ""
    ensures Trim(Quoted(x)) == Quoted(x) == Lower(Quoted(x)) == CollapseGaps(Quoted(x))
  {
    SpaceIsGap();
    SpaceIsSpace();
    hide IsSpace, IsGap, LowerChar, CollapseGaps;
    var value := Quoted(x);
    assert Tidy(value) && Lower(value) == value;
    CollapseKeepsTidy(value);
  }

  lemma QuotesStrip(x: string)
    ensures StripTrailingQuotes(StripLeadingQuotes(Quoted(x))) == " " + x + " "
  {
    SpaceIsGap();
    hide IsQuote;
    var inner := " " + x + " ";
    assert Quoted(x)[1..] == inner + "\"" && Quoted(x)[1..][0] == ' ';
    StripsLast(inner);
  }

  lemma StripsLast(s: string)
    requires s != "" && s[|s| - 1] == ' '
    ensures StripTrailingQuotes(s + "\"") == s
  {
    assert (s + "\"")[..|s|] == s;
  }

  lemma CanonicalTrims(x: string)
    requires Canonical(x) && x != ""
    ensures Trim(" " + x + " ") == x
  {
    SpaceIsSpace();
    assert !IsSpace(x[0]) && !IsSpace(x[|x| - 1]);
    hide IsSpace;
    var padded := " " + x + " ";
    assert padded[1..] == x + " " && (x + " ")[0] == x[0] && (x + " ")[..|x|] == x;
    assert TrimStart(padded) == TrimStart(x + " ") == x + " ";
    assert TrimEnd(x + " ") == TrimEnd(x) == x;
  }

  // ---------- When the key identifies the triple ----------

  /** A separator with no space on either side: the field could have been cut there. */
  ghost predicate Tight(x: string, i: nat) {
    i < |x| && x[i] == '|' && (i > 0 ==> x[i - 1] != ' ') && (i + 1 < |x| ==> x[i + 1] != ' ')
  }

  ghost predicate Uncut(x: string) {
    forall i: nat :: !Tight(x, i)
  }

  ghost predicate CanonicalFields(s: string, p: string, o: string) {
    Canonical(s) && Canonical(p) && Canonical(o)
  }

  /** The two cuts of a key are tight in it. */
  lemma CutsAreTight(s: string, p: string, o: string)
    requires CanonicalFields(s, p, o)
    ensures Tight(JoinKey(s, p, o), |s|) && Tight(JoinKey(s, p, o), |s| + 1 + |p|)
  {
    hide Tidy;
    var key := JoinKey(s, p, o);
    assert key[|s|] == '|' && key[|s| + 1 + |p|] == '|';
    assert s != "" ==> key[|s| - 1] == s[|s| - 1];
    assert p != "" ==> key[|s| + 1] == p[0] && key[|s| + |p|] == p[|p| - 1];
    assert o != "" ==> key[|s| + 2 + |p|] == o[0];
  }

  /** A tight separator of the key that is no cut lies tight in one of the fields. */
  lemma TightInField(s: string, p: string, o: string, i: nat)
    requires Tight(JoinKey(s, p, o), i) && Uncut(s) && Uncut(p) && Uncut(o)
    ensures i == |s| || i == |s| + 1 + |p|
  {
    var key := JoinKey(s, p, o);
    var m, n := |s| + 1, |s| + 2 + |p|;
    assert forall k :: 0 <= k < |s| ==> key[k] == s[k];
    assert forall k :: 0 <= k < |p| ==> key[m + k] == p[k];
    assert forall k :: 0 <= k < |o| ==> key[n + k] == o[k];
    assert i < |s| ==> Tight(s, i);
    assert |s| < i < n - 1 ==> Tight(p, i - m);
    assert n - 1 < i ==> Tight(o, i - n);
  }

  lemma SameCuts(s: string, p: string, o: string, s': string, p': string, o': string)
    requires JoinKey(s, p, o) == JoinKey(s', p', o') && |s| == |s'| && |p| == |p'|
    ensures s == s' && p == p' && o == o'
  {
    var key := JoinKey(s, p, o);
    assert s == key[..|s|] && s' == key[..|s|];
    assert p == key[|s| + 1..|s| + 1 + |p|] && p' == key[|s| + 1..|s| + 1 + |p|];
    assert o == key[|s| + 2 + |p|..] && o' == key[|s| + 2 + |p|..];
  }

  lemma UncutIsIdentified(s: string, p: string, o: string, s': string, p': string, o': string)
    requires Uncut(s) && Uncut(p) && Uncut(o) && CanonicalFields(s', p', o') && JoinKey(s', p', o') == JoinKey(s, p, o)
    ensures s == s' && p == p' && o == o'
  {
    hide Uncut, CanonicalFields, Tight;
    CutsAreTight(s', p', o');
    TightInField(s, p, o, |s'|);
    TightInField(s, p, o, |s'| + 1 + |p'|);
    SameCuts(s, p, o, s', p', o');
  }

  /** A tight separator inside a field gives other canonical fields with the same key. */
  lemma CutElsewhere(s: string, p: string, o: string) returns (s': string, p': string, o': string)
    requires CanonicalFields(s, p, o) && !(Uncut(s) && Uncut(p) && Uncut(o))
    ensures CanonicalFields(s', p', o') && JoinKey(s', p', o') == JoinKey(s, p, o) && (s', p', o') != (s, p, o)
  {
    hide Uncut, Canonical;
    if !Uncut(s) {
      var a, b := CutField(s);
      s', p', o' := a, b + "|" + p, o;
      Bar(b, p);
    } else if !Uncut(p) {
      var a, b := CutField(p);
      s', p', o' := s + "|" + a, b, o;
      Bar(s, a);
    } else {
      var a, b := CutField(o);
      s', p', o' := s, p + "|" + a, b;
      Bar(p, a);
    }
  }

  lemma CutField(x: string) returns (a: string, b: string)
    requires Canonical(x) && !Uncut(x)
    ensures Canonical(a) && Canonical(b) && x == a + "|" + b
  {
    hide IsGap, LowerChar;
    var i: nat :| Tight(x, i);
    a, b := x[..i], x[i + 1..];
  }

  lemma Bar(a: string, b: string)
    requires Canonical(a) && Canonical(b)
    ensures Canonical(a + "|" + b)
  {
    assert LowerChar('|') == '|' && !IsGap('|');
    hide IsGap, LowerChar;
  }

  /**
   * The key identifies a normalized triple exactly when none of its fields holds a separator
   * without a space beside it.
   */
  lemma KeyIdentifiesTriple(t: Triple)
    ensures var n := NormOf(t);
            (forall t' :: NormOf(t').key == n.key ==> NormOf(t') == n) <==>
                Uncut(n.subj) && Uncut(n.pred) && Uncut(n.obj)
  {
    hide NormalizeTripleField, Uncut, Canonical;
    var n := NormOf(t);
    FieldsAreCanonical(t);
    if Uncut(n.subj) && Uncut(n.pred) && Uncut(n.obj) {
      forall t' | NormOf(t').key == n.key
        ensures NormOf(t') == n
      {
        var n' := NormOf(t');
        FieldsAreCanonical(t');
        UncutIsIdentified(n.subj, n.pred, n.obj, n'.subj, n'.pred, n'.obj);
      }
    } else {
      var s, p, o := CutElsewhere(n.subj, n.pred, n.obj);
      var vs := CanonicalIsNormalized(s);
      var vp := CanonicalIsNormalized(p);
      var vo := CanonicalIsNormalized(o);
      var t' := Triple(vs, vp, vo);
      assert NormOf(t').key == n.key && NormOf(t') != n;
    }
  }

  lemma FieldsAreCanonical(t: Triple)
    ensures var n := NormOf(t); CanonicalFields(n.subj, n.pred, n.obj) && n.key == JoinKey(n.subj, n.pred, n.obj)
  {
    hide NormalizeTripleField, Canonical;
    NormalizedIsCanonical(t.subj);
    NormalizedIsCanonical(t.pred);
    NormalizedIsCanonical(t.obj);
  }

  /** Over all texts, normalized or not: the key determines the fields exactly when no field holds a separator. */
  lemma KeyDeterminesFields(s: string, p: string, o: string)
    ensures (forall s', p', o' :: JoinKey(s', p', o') == JoinKey(s, p, o) ==> (s', p', o') == (s, p, o))
            <==> '|' !in s && '|' !in p && '|' !in o
  {
    if '|' !in s && '|' !in p && '|' !in o {
      forall s', p', o' | JoinKey(s', p', o') == JoinKey(s, p, o)
        ensures (s', p', o') == (s, p, o)
      {
        var key := JoinKey(s, p, o);
        assert forall i :: 0 <= i < |key| && key[i] == '|' ==> i == |s| || i == |s| + 1 + |p|;
        assert key == JoinKey(s', p', o');
        assert key[|s'|] == '|' && key[|s'| + 1 + |p'|] == '|';
        SameCuts(s, p, o, s', p', o');
      }
    } else {
      var s', p', o' := MovedCut(s, p, o);
    }
  }

  lemma MovedCut(s: string, p: string, o: string) returns (s': string, p': string, o': string)
    requires '|' in s || '|' in p || '|' in o
    ensures JoinKey(s', p', o') == JoinKey(s, p, o) && (s', p', o') != (s, p, o)
  {
    if '|' in s {
      var i :| 0 <= i < |s| && s[i] == '|';
      s', p', o' := s[..i], s[i + 1..] + "|" + p, o;
      assert s == s[..i] + "|" + s[i + 1..];
    } else if '|' in p {
      var i :| 0 <= i < |p| && p[i] == '|';
      s', p', o' := s + "|" + p[..i], p[i + 1..], o;
      assert p == p[..i] + "|" + p[i + 1..];
    } else {
      var i :| 0 <= i < |o| && o[i] == '|';
      s', p', o' := s, p + "|" + o[..i], o[i + 1..];
      assert o == o[..i] + "|" + o[i + 1..];
    }
  }

  /** Two triples of the same key and different normalized fields. */
  lemma KeysCollideOnSeparator()
    ensures var t, t' := Triple("a|b", "c", "o"), Triple("a", "b|c", "o");
            NormOf(t).key == NormOf(t').key && NormOf(t).subj != NormOf(t').subj
  {
    hide NormalizeTripleField, AllPlain;
    PlainTexts();
    PlainField("a|b");
    PlainField("c");
    PlainField("o");
    PlainField("a");
    PlainField("b|c");
    assert "a|b" + "|" + "c" + "|" + "o" == "a" + "|" + "b|c" + "|" + "o";
    assert |"a|b"| != |"a"|;
  }

  lemma PlainTexts()
    ensures AllPlain("a|b") && AllPlain("b|c") && AllPlain("a") && AllPlain("c") && AllPlain("o")
  {
    assert Plain('a') && Plain('b') && Plain('c') && Plain('|') && Plain('o');
    hide Plain;
  }

  predicate Plain(c: char) {
    LowerChar(c) == c && !IsGap(c) && !IsQuote(c)
  }

  predicate AllPlain(x: string) {
    forall i :: 0 <= i < |x| ==> Plain(x[i])
  }

  /** A text of plain characters is its own normal form. */
  lemma PlainField(x: string)
    requires x != "" && AllPlain(x)
    ensures NormalizeTripleField(x) == x
  {
    assert Plain(x[0]) && Plain(x[|x| - 1]);
    hide IsSpace, IsQuote, LowerChar;
    assert Lower(x) == x;
    CollapseKeepsPlain(x);
  }

  lemma {:induction false} CollapseKeepsPlain(x: string)
    requires forall i :: 0 <= i < |x| ==> !IsGap(x[i])
    ensures CollapseGaps(x) == x
  {
    if x != "" {
      CollapseKeepsPlain(x[1..]);
      assert x == [x[0]] + x[1..];
    }
  }
}
