/** The tokenizer and highlighter of the query preview. The token pattern is matched by direct
    scanners, alternative by alternative in the order the pattern lists them. */
module QueryTokens {
  import opened Outcomes
  import opened Text

  datatype Class = Plain | Keyword | Paren | Value | Field

  datatype Span = Span(text: string, kind: Class)

  predicate IsWordStart(c: char) {
    'A' <= c <= 'Z' || 'a' <= c <= 'z' || c == '_'
  }

  predicate IsWordChar(c: char) {
    IsWordStart(c) || '0' <= c <= '9'
  }

  function SpaceEnd(text: string, i: nat): (e: nat)
    requires i <= |text|
    ensures i <= e <= |text|
    ensures forall k :: i <= k < e ==> IsSpace(text[k])
    ensures e < |text| ==> !IsSpace(text[e])
    decreases |text| - i
  {
    if i < |text| && IsSpace(text[i]) then SpaceEnd(text, i + 1) else i
  }

  function WordEnd(text: string, i: nat): (e: nat)
    requires i <= |text|
    ensures i <= e <= |text|
    ensures forall k :: i <= k < e ==> IsWordChar(text[k])
    ensures e < |text| ==> !IsWordChar(text[e])
    decreases |text| - i
  {
    if i < |text| && IsWordChar(text[i]) then WordEnd(text, i + 1) else i
  }

  /** The end of a quoted token whose opening quote precedes i. An escaped quote is consumed as a
      pair; when the text runs out first, the match falls back to the last escaped quote passed. */
  function QuotedEnd(text: string, i: nat, fallback: Option<nat>): (e: Option<nat>)
    requires i <= |text|
    requires fallback.Some? ==> fallback.value <= i
    ensures e.Some? ==> e.value <= |text| && (e.value > i || e == fallback)
    decreases |text| - i
  {
    if i == |text| then fallback
    else if text[i] == '"' then Some(i + 1)
    else if text[i] == '\\' && i + 1 < |text| && text[i + 1] == '"' then QuotedEnd(text, i + 2, Some(i + 2))
    else QuotedEnd(text, i + 1, fallback)
  }

  predicate HasWord(text: string, i: nat, word: string)
    requires word != []
  {
    i + |word| <= |text| && text[i] == word[0] && text[i..i + |word|] == word
  }

  /** Where a token starting at i ends, if one does. */
  function MatchAt(text: string, i: nat): (e: Option<nat>)
    requires i < |text|
    ensures e.Some? ==> i < e.value <= |text|
  {
    if IsSpace(text[i]) then Some(SpaceEnd(text, i + 1))
    else if HasWord(text, i, "AND") then Some(i + 3)
    else if HasWord(text, i, "OR") then Some(i + 2)
    else if HasWord(text, i, "NOT") then Some(i + 3)
    else if text[i] == '(' || text[i] == ')' then Some(i + 1)
    else if text[i] == '"' then QuotedEnd(text, i + 1, None)
    else if IsWordStart(text[i]) then
      var e := WordEnd(text, i + 1);
      if e < |text| && text[e] == ':' then Some(e + 1) else None
    else None
  }

  /** The leftmost token at or after i: its start and its end. */
  function FindToken(text: string, i: nat): (t: Option<(nat, nat)>)
    requires i <= |text|
    ensures t.Some? ==> i <= t.value.0 < t.value.1 <= |text|
    decreases |text| - i
  {
    if i == |text| then None
    else
      var e := MatchAt(text, i);
      if e.Some? then Some((i, e.value)) else FindToken(text, i + 1)
  }

  function ClassifyToken(tok: string): Class
    requires tok != []
  {
    if AllSpace(tok) then Plain
    else if tok == "AND" || tok == "OR" || tok == "NOT" then Keyword
    else if tok == "(" || tok == ")" then Paren
    else if tok[0] == '"' then Value
    else if tok[|tok| - 1] == ':' then Field
    else Plain
  }

  function PlainSpan(text: string, i: nat, j: nat): seq<Span>
    requires i <= j <= |text|
  {
    if i < j then [Span(text[i..j], Plain)] else []
  }

  /** The spans of text[i..]. */
  function SpansFrom(text: string, i: nat): seq<Span>
    requires i <= |text|
    decreases |text| - i
  {
    var t := FindToken(text, i);
    if t.None? then PlainSpan(text, i, |text|)
    else
      var (start, end) := t.value;
      PlainSpan(text, i, start) + [Span(text[start..end], ClassifyToken(text[start..end]))] + SpansFrom(text, end)
  }

  function Concatenated(spans: seq<Span>): string {
    if spans == [] then "" else spans[0].text + Concatenated(spans[1..])
  }

  lemma {:induction false} ConcatenatedAppend(a: seq<Span>, b: seq<Span>)
    ensures Concatenated(a + b) == Concatenated(a) + Concatenated(b)
  {
    if a == [] {
      assert a + b == b;
    } else {
      assert (a + b)[1..] == a[1..] + b;
      ConcatenatedAppend(a[1..], b);
    }
  }

  lemma ConcatenatedPlain(text: string, i: nat, j: nat)
    requires i <= j <= |text|
    ensures Concatenated(PlainSpan(text, i, j)) == text[i..j]
  {
    assert i < j ==> PlainSpan(text, i, j)[1..] == [];
  }

  /** The highlighter loses and invents nothing, on any text at all. */
  lemma {:induction false} SpansAreLossless(text: string, i: nat)
    requires i <= |text|
    ensures Concatenated(SpansFrom(text, i)) == text[i..]
    decreases |text| - i
  {
    hide FindToken, ClassifyToken, PlainSpan, Concatenated;
    var t := FindToken(text, i);
    if t.None? {
      ConcatenatedPlain(text, i, |text|);
    } else {
      var (start, end) := t.value;
      SpansAreLossless(text, end);
      var tok := Span(text[start..end], ClassifyToken(text[start..end]));
      ConcatenatedAppend(PlainSpan(text, i, start) + [tok], SpansFrom(text, end));
      ConcatenatedAppend(PlainSpan(text, i, start), [tok]);
      ConcatenatedPlain(text, i, start);
      ConcatenatedOne(tok);
      assert text[i..start] + text[start..end] + text[end..] == text[i..];
    }
  }

  lemma ConcatenatedOne(span: Span)
    ensures Concatenated([span]) == span.text
  {
    assert [span][1..] == [];
  }

  /** The spans up to the end of the next token, after those already pushed. */
  lemma SpansStep(text: string, i: nat, out: seq<Span>)
    requires i <= |text| && FindToken(text, i).Some?
    ensures var (start, end) := FindToken(text, i).value;
            out + SpansFrom(text, i)
            == out + PlainSpan(text, i, start) + [Span(text[start..end], ClassifyToken(text[start..end]))] + SpansFrom(text, end)
  {
    hide FindToken, ClassifyToken, PlainSpan;
  }

  lemma SpansEnd(text: string, i: nat)
    requires i <= |text| && FindToken(text, i).None?
    ensures SpansFrom(text, i) == if i < |text| then [Span(text[i..], Plain)] else []
  {
    hide FindToken;
    assert text[i..] == text[i..|text|];
  }

  /** The loop over successive matches. */
  method Highlight(text: string) returns (out: seq<Span>)
    ensures out == SpansFrom(text, 0)
    ensures Concatenated(out) == text
  {
    hide FindToken, ClassifyToken, SpansFrom, Concatenated;
    out := [];
    var lastIndex := 0;
    var m := FindToken(text, 0);
    while m.Some?
      invariant lastIndex <= |text|
      invariant m == FindToken(text, lastIndex)
      invariant SpansFrom(text, 0) == out + SpansFrom(text, lastIndex)
      decreases |text| - lastIndex
    {
      var (index, end) := m.value;
      SpansStep(text, lastIndex, out);
      assert out + [] == out;
      if index > lastIndex {
        out := out + [Span(text[lastIndex..index], Plain)];
      }
      var tok := text[index..end];
      out := out + [Span(tok, ClassifyToken(tok))];
      lastIndex := end;
      m := FindToken(text, lastIndex);
    }
    SpansEnd(text, lastIndex);
    assert out + [] == out;
    if lastIndex < |text| {
      out := out + [Span(text[lastIndex..], Plain)];
    }
    SpansAreLossless(text, 0);
    assert text[0..] == text;
  }

  // ---------------------------------------------------------------------------------------
  // Reading the quoted values back
  // ---------------------------------------------------------------------------------------

  function Unescape(s: string): string {
    if s == [] then []
    else if s[0] == '\\' && |s| > 1 && s[1] == '"' then ['"'] + Unescape(s[2..])
    else [s[0]] + Unescape(s[1..])
  }

  /** The content of a quoted token. */
  function Unquote(tok: string): string {
    if |tok| >= 2 then Unescape(tok[1..|tok| - 1]) else ""
  }

  /** The quoted tokens among the spans, unescaped, in order. */
  function ReadValues(spans: seq<Span>): seq<string> {
    if spans == [] then []
    else (if spans[0].kind == Value then [Unquote(spans[0].text)] else []) + ReadValues(spans[1..])
  }

  /** The same, straight from the matches at or after i. */
  function ValuesFrom(text: string, i: nat): seq<string>
    requires i <= |text|
    decreases |text| - i
  {
    var t := FindToken(text, i);
    if t.None? then []
    else
      var (start, end) := t.value;
      (if text[start] == '"' then [Unquote(text[start..end])] else []) + ValuesFrom(text, end)
  }

  lemma {:induction false} ReadAppend(a: seq<Span>, b: seq<Span>)
    ensures ReadValues(a + b) == ReadValues(a) + ReadValues(b)
  {
    hide Unquote;
    if a == [] {
      assert a + b == b;
    } else {
      assert (a + b)[1..] == a[1..] + b && (a + b)[0] == a[0];
      ReadAppend(a[1..], b);
    }
  }

  /** Exactly the quoted tokens are classified as values. */
  lemma ValueClass(text: string, i: nat)
    requires i < |text| && MatchAt(text, i).Some?
    ensures ClassifyToken(text[i..MatchAt(text, i).value]) == Value <==> text[i] == '"'
  {
    var tok := text[i..MatchAt(text, i).value];
    assert tok[0] == text[i];
    if IsSpace(text[i]) {
      assert AllSpace(tok);
    }
  }

  lemma {:induction false} FoundMatches(text: string, i: nat)
    requires i <= |text| && FindToken(text, i).Some?
    ensures var (start, end) := FindToken(text, i).value; MatchAt(text, start) == Some(end)
    decreases |text| - i
  {
    if MatchAt(text, i).None? {
      FoundMatches(text, i + 1);
    }
  }

  lemma {:induction false} SpansGiveValues(text: string, i: nat)
    requires i <= |text|
    ensures ReadValues(SpansFrom(text, i)) == ValuesFrom(text, i)
    decreases |text| - i
  {
    var t := FindToken(text, i);
    if t.Some? {
      var (start, end) := t.value;
      FoundMatches(text, i);
      ValueClass(text, start);
      SpansGiveValues(text, end);
      var tok := [Span(text[start..end], ClassifyToken(text[start..end]))];
      ReadAppend(PlainSpan(text, i, start) + tok, SpansFrom(text, end));
      ReadAppend(PlainSpan(text, i, start), tok);
      assert ReadValues(tok) == (if text[start] == '"' then [Unquote(text[start..end])] else []) + ReadValues([]);
    }
  }
}
