/** What the preview's token pattern matches, said without its scanners: the five kinds of token as
    properties of a stretch of text, and the tokenizer as the longest one of the first kind that fits. */
module TokenGrammar {
  import opened Outcomes
  import opened Text
  import opened QueryTokens

  predicate Letter(c: char) {
    'a' <= c <= 'z' || 'A' <= c <= 'Z'
  }

  /** text[i..e] is a token of the kind. A quote inside a quoted token stands behind a backslash, which
      itself stands behind the opening quote. */
  predicate TokenAt(kind: Class, text: string, i: nat, e: nat)
    requires i < e <= |text|
  {
    match kind
    case Plain => forall k :: i <= k < e ==> IsSpace(text[k])
    case Keyword => text[i..e] == "AND" || text[i..e] == "OR" || text[i..e] == "NOT"
    case Paren => e == i + 1 && (text[i] == '(' || text[i] == ')')
    case Value =>
      && e > i + 1 && text[i] == '"' && text[e - 1] == '"'
      && forall k :: i < k < e - 1 && text[k] == '"' ==> k > i + 1 && text[k - 1] == '\\'
    case Field =>
      && e > i + 1 && (Letter(text[i]) || text[i] == '_') && text[e - 1] == ':'
      && forall k :: i < k < e - 1 ==> Letter(text[k]) || text[k] == '_' || text[k] in "0123456789"
  }

  /** The place of a kind among the pattern's alternatives. */
  function Rank(kind: Class): nat {
    match kind
    case Plain => 0
    case Keyword => 1
    case Paren => 2
    case Value => 3
    case Field => 4
  }

  predicate Longest(kind: Class, text: string, i: nat, e: nat)
    requires i < e <= |text|
  {
    TokenAt(kind, text, i, e) && forall e' :: e < e' <= |text| ==> !TokenAt(kind, text, i, e')
  }

  predicate NoTokenAt(kind: Class, text: string, i: nat)
    requires i < |text|
  {
    forall e :: i < e <= |text| ==> !TokenAt(kind, text, i, e)
  }

  /** The longest token of the first kind of which one starts at i. */
  predicate FirstChoice(kind: Class, text: string, i: nat, e: nat)
    requires i < e <= |text|
  {
    Longest(kind, text, i, e) && forall other: Class :: Rank(other) < Rank(kind) ==> NoTokenAt(other, text, i)
  }

  // ---------------------------------------------------------------------------------------
  // Quoted tokens
  // ---------------------------------------------------------------------------------------

  /** Between the opening quote at o and i every quote is escaped, and the last of them is the fallback. */
  predicate ScannedTo(text: string, o: nat, i: nat, fallback: Option<nat>)
    requires o < i <= |text|
  {
    && (forall k :: o < k < i && text[k] == '"' ==> k > o + 1 && text[k - 1] == '\\')
    && (i < |text| && text[i] == '"' ==> !(i > o + 1 && text[i - 1] == '\\'))
    && (match fallback
        case Some(v) => o + 1 < v <= i && text[v - 1] == '"' && forall k :: v <= k < i ==> text[k] != '"'
        case None => forall k :: o < k < i ==> text[k] != '"')
  }

  lemma {:induction false} QuotedIsLongest(text: string, o: nat, i: nat, fallback: Option<nat>)
    requires o < i <= |text| && text[o] == '"' && ScannedTo(text, o, i, fallback)
    ensures match QuotedEnd(text, i, fallback)
            case Some(e) => o < e <= |text| && Longest(Value, text, o, e)
            case None => NoTokenAt(Value, text, o)
    decreases |text| - i
  {
    if i == |text| {
    } else if text[i] == '"' {
    } else if text[i] == '\\' && i + 1 < |text| && text[i + 1] == '"' {
      QuotedIsLongest(text, o, i + 2, Some(i + 2));
    } else {
      QuotedIsLongest(text, o, i + 1, fallback);
    }
  }

  // ---------------------------------------------------------------------------------------
  // The alternatives
  // ---------------------------------------------------------------------------------------

  lemma SpacesFirst(text: string, i: nat)
    requires i < |text| && IsSpace(text[i])
    ensures MatchAt(text, i).Some? && FirstChoice(Plain, text, i, MatchAt(text, i).value)
  {
    var e := SpaceEnd(text, i + 1);
    forall e' | e < e' <= |text| ensures !TokenAt(Plain, text, i, e') {
      assert !IsSpace(text[e]);
    }
  }

  lemma NoSpacesAt(text: string, i: nat)
    requires i < |text| && !IsSpace(text[i])
    ensures NoTokenAt(Plain, text, i)
  {
  }

  lemma KeywordAt(text: string, i: nat, e: nat)
    requires i < e <= |text|
    ensures TokenAt(Keyword, text, i, e) <==>
            || (HasWord(text, i, "AND") && e == i + 3)
            || (HasWord(text, i, "OR") && e == i + 2)
            || (HasWord(text, i, "NOT") && e == i + 3)
  {
  }

  predicate KeywordStarts(text: string, i: nat) {
    HasWord(text, i, "AND") || HasWord(text, i, "OR") || HasWord(text, i, "NOT")
  }

  lemma KeywordFirst(text: string, i: nat)
    requires i < |text| && KeywordStarts(text, i)
    ensures MatchAt(text, i).Some? && FirstChoice(Keyword, text, i, MatchAt(text, i).value)
  {
    NoSpacesAt(text, i);
    hide TokenAt, SpaceEnd, WordEnd, QuotedEnd;
    var m := MatchAt(text, i);
    KeywordAt(text, i, m.value);
    forall e' | m.value < e' <= |text| ensures !TokenAt(Keyword, text, i, e') {
      KeywordAt(text, i, e');
    }
  }

  lemma NoKeywordAt(text: string, i: nat)
    requires i < |text| && !KeywordStarts(text, i)
    ensures NoTokenAt(Keyword, text, i)
  {
    hide TokenAt;
    forall e | i < e <= |text| ensures !TokenAt(Keyword, text, i, e) {
      KeywordAt(text, i, e);
    }
  }

  lemma OthersFirst(text: string, i: nat)
    requires i < |text| && !IsSpace(text[i]) && !KeywordStarts(text, i)
    requires text[i] == '(' || text[i] == ')' || text[i] == '"'
    ensures match MatchAt(text, i)
            case Some(e) => exists kind :: (kind == Paren || kind == Value) && FirstChoice(kind, text, i, e)
            case None => forall kind :: NoTokenAt(kind, text, i)
  {
    NoSpacesAt(text, i);
    NoKeywordAt(text, i);
    if text[i] == '"' {
      QuotedIsLongest(text, i, i + 1, None);
      assert NoTokenAt(Paren, text, i) && NoTokenAt(Field, text, i);
      if MatchAt(text, i).Some? {
        assert FirstChoice(Value, text, i, MatchAt(text, i).value);
      }
    } else {
      assert FirstChoice(Paren, text, i, i + 1);
    }
  }

  lemma {:induction false} WordEndIs(text: string, i: nat, e: nat)
    requires i <= e < |text| && !IsWordChar(text[e]) && forall k :: i <= k < e ==> IsWordChar(text[k])
    ensures WordEnd(text, i) == e
    decreases e - i
  {
    if i < e {
      WordEndIs(text, i + 1, e);
    }
  }

  lemma DigitsAreRange()
    ensures forall c: char :: c in "0123456789" <==> '0' <= c <= '9'
  {
    var digits := "0123456789";
    forall c: char | '0' <= c <= '9' ensures c in digits {
      assert digits[c as int - '0' as int] == c;
    }
  }

  lemma FieldAt(text: string, i: nat, e: nat)
    requires i < e <= |text| && TokenAt(Field, text, i, e)
    ensures e == WordEnd(text, i + 1) + 1
  {
    DigitsAreRange();
    WordEndIs(text, i + 1, e - 1);
  }

  lemma FieldLast(text: string, i: nat)
    requires i < |text| && !IsSpace(text[i]) && !KeywordStarts(text, i)
    requires text[i] != '(' && text[i] != ')' && text[i] != '"'
    ensures match MatchAt(text, i)
            case Some(e) => FirstChoice(Field, text, i, e)
            case None => forall kind :: NoTokenAt(kind, text, i)
  {
    NoSpacesAt(text, i);
    NoKeywordAt(text, i);
    assert NoTokenAt(Paren, text, i) && NoTokenAt(Value, text, i);
    DigitsAreRange();
    if e :| i < e <= |text| && TokenAt(Field, text, i, e) {
      FieldAt(text, i, e);
      forall e' | e < e' <= |text| ensures !TokenAt(Field, text, i, e') {
        if TokenAt(Field, text, i, e') {
          FieldAt(text, i, e');
        }
      }
    }
  }

  /** Where a token starts at i at all, the tokenizer takes the longest one of the first kind in the
      pattern's order: so `AND` in `ANDROID:` is a keyword, and a quoted token runs to the first quote
      without a backslash, or to the last one if all have one. */
  lemma MatchIsFirstChoice(text: string, i: nat)
    requires i < |text|
    ensures match MatchAt(text, i)
            case Some(e) => exists kind :: FirstChoice(kind, text, i, e)
            case None => forall kind :: NoTokenAt(kind, text, i)
  {
    if IsSpace(text[i]) {
      SpacesFirst(text, i);
    } else if KeywordStarts(text, i) {
      KeywordFirst(text, i);
    } else if text[i] == '(' || text[i] == ')' || text[i] == '"' {
      OthersFirst(text, i);
    } else {
      FieldLast(text, i);
    }
  }

  /** Each token is shown in the colour of its kind. */
  lemma ClassIsKind(text: string, i: nat, e: nat, kind: Class)
    requires i < e <= |text| && TokenAt(kind, text, i, e)
    ensures ClassifyToken(text[i..e]) == kind
  {
    var tok := text[i..e];
    assert tok[0] == text[i] && tok[|tok| - 1] == text[e - 1];
    assert AllSpace(tok) ==> IsSpace(tok[0]) && IsSpace(tok[|tok| - 1]);
    if kind == Plain {
      assert AllSpace(tok);
    }
  }

  // ---------------------------------------------------------------------------------------
  // The spans
  // ---------------------------------------------------------------------------------------

  /** The span stands at p: either the token the pattern takes there, in its colour, or the whole plain
      stretch up to where the next token starts. */
  ghost predicate Stands(text: string, p: nat, span: Span) {
    var end := p + |span.text|;
    && p < end <= |text| && span.text == text[p..end]
    && (match MatchAt(text, p)
        case Some(e) => e == end && FirstChoice(span.kind, text, p, end)
        case None =>
          && span.kind == Plain
          && (forall q :: p <= q < end ==> MatchAt(text, q).None?)
          && (end < |text| ==> MatchAt(text, end).Some?))
  }

  /** The spans stand one behind the other from p to the end of the text. */
  ghost predicate StandFrom(text: string, p: nat, spans: seq<Span>)
    decreases |spans|
  {
    if spans == [] then p == |text|
    else Stands(text, p, spans[0]) && StandFrom(text, p + |spans[0].text|, spans[1..])
  }

  lemma {:induction false} FoundIsLeftmost(text: string, i: nat)
    requires i <= |text|
    ensures match FindToken(text, i)
            case Some((start, end)) =>
              i <= start < |text| && MatchAt(text, start) == Some(end)
              && forall q :: i <= q < start ==> MatchAt(text, q).None?
            case None => forall q :: i <= q < |text| ==> MatchAt(text, q).None?
    decreases |text| - i
  {
    hide MatchAt;
    if i < |text| && MatchAt(text, i).None? {
      FoundIsLeftmost(text, i + 1);
    }
  }

  lemma TokenStands(text: string, p: nat, end: nat)
    requires p < |text| && MatchAt(text, p) == Some(end)
    ensures Stands(text, p, Span(text[p..end], ClassifyToken(text[p..end])))
  {
    MatchIsFirstChoice(text, p);
    hide MatchAt, TokenAt, ClassifyToken;
    var kind :| FirstChoice(kind, text, p, end);
    ClassIsKind(text, p, end, kind);
  }

  lemma GapStands(text: string, i: nat, j: nat)
    requires i < j <= |text| && (forall q :: i <= q < j ==> MatchAt(text, q).None?)
    requires j < |text| ==> MatchAt(text, j).Some?
    ensures Stands(text, i, Span(text[i..j], Plain))
  {
    hide MatchAt;
  }

  /** What the preview shows for any text: one after the other and without gaps, every token the pattern
      finds in the colour of its kind, and every stretch between two of them plain. */
  lemma {:induction false} SpansStand(text: string, i: nat)
    requires i <= |text|
    ensures StandFrom(text, i, SpansFrom(text, i))
    decreases |text| - i
  {
    hide MatchAt, Stands, StandFrom, FindToken, SpansFrom;
    FoundIsLeftmost(text, i);
    match FindToken(text, i)
    case None => LastStands(text, i);
    case Some((start, end)) =>
      SpansStand(text, end);
      TokenAndRestStand(text, i, start, end);
  }

  lemma LastStands(text: string, i: nat)
    requires i <= |text| && FindToken(text, i).None?
    requires forall q :: i <= q < |text| ==> MatchAt(text, q).None?
    ensures StandFrom(text, i, SpansFrom(text, i))
  {
    assert StandFrom(text, |text|, []);
    SpansEnd(text, i);
    hide MatchAt, Stands, StandFrom, FindToken, SpansFrom;
    if i < |text| {
      GapStands(text, i, |text|);
      assert text[i..|text|] == text[i..];
      StandsBefore(text, i, Span(text[i..|text|], Plain), []);
    }
  }

  lemma TokenAndRestStand(text: string, i: nat, start: nat, end: nat)
    requires i <= start < end <= |text| && FindToken(text, i) == Some((start, end)) && MatchAt(text, start) == Some(end)
    requires forall q :: i <= q < start ==> MatchAt(text, q).None?
    requires StandFrom(text, end, SpansFrom(text, end))
    ensures StandFrom(text, i, SpansFrom(text, i))
  {
    var tok := Span(text[start..end], ClassifyToken(text[start..end]));
    TokenBefore(text, start, end, SpansFrom(text, end));
    GapBefore(text, i, start, [tok] + SpansFrom(text, end));
    SpansSplit(text, i);
    hide *;
  }

  lemma TokenBefore(text: string, p: nat, end: nat, rest: seq<Span>)
    requires p < end <= |text| && MatchAt(text, p) == Some(end) && StandFrom(text, end, rest)
    ensures StandFrom(text, p, [Span(text[p..end], ClassifyToken(text[p..end]))] + rest)
  {
    TokenStands(text, p, end);
    hide MatchAt, Stands, StandFrom, ClassifyToken;
    StandsBefore(text, p, Span(text[p..end], ClassifyToken(text[p..end])), rest);
  }

  lemma GapBefore(text: string, p: nat, end: nat, rest: seq<Span>)
    requires p <= end < |text| && (forall q :: p <= q < end ==> MatchAt(text, q).None?) && MatchAt(text, end).Some?
    requires StandFrom(text, end, rest)
    ensures StandFrom(text, p, if p < end then [Span(text[p..end], Plain)] + rest else rest)
  {
    hide MatchAt, Stands, StandFrom;
    if p < end {
      GapStands(text, p, end);
      StandsBefore(text, p, Span(text[p..end], Plain), rest);
    }
  }

  lemma SpansSplit(text: string, i: nat)
    requires i <= |text| && FindToken(text, i).Some?
    ensures var (start, end) := FindToken(text, i).value;
            var rest := [Span(text[start..end], ClassifyToken(text[start..end]))] + SpansFrom(text, end);
            SpansFrom(text, i) == if i < start then [Span(text[i..start], Plain)] + rest else rest
  {
    hide FindToken, ClassifyToken;
  }

  lemma StandsBefore(text: string, p: nat, span: Span, rest: seq<Span>)
    requires Stands(text, p, span) && StandFrom(text, p + |span.text|, rest)
    ensures StandFrom(text, p, [span] + rest)
  {
    hide Stands;
    assert ([span] + rest)[1..] == rest;
  }
}
