/** Printing and reading agree: what the preview's tokenizer reads back from a generated query. */
module QueryRoundTrip {
  import opened Outcomes
  import opened Text
  import BooleanQuery
  import opened QueryTokens

  // ---------------------------------------------------------------------------------------
  // A generated text is a sequence of slots: some text without quotes, then a quoted value
  // ---------------------------------------------------------------------------------------

  datatype Slot = Slot(gap: string, value: string)

  function Quoted(v: string): string {
    "\"" + BooleanQuery.EscapeQuotes(v) + "\""
  }

  function Render(slots: seq<Slot>): string {
    if slots == [] then "" else Render(slots[..|slots| - 1]) + slots[|slots| - 1].gap + Quoted(slots[|slots| - 1].value)
  }

  function Values(slots: seq<Slot>): (r: seq<string>)
    ensures |r| == |slots|
    ensures forall k :: 0 <= k < |slots| ==> r[k] == slots[k].value
  {
    seq(|slots|, k requires 0 <= k < |slots| => slots[k].value)
  }

  predicate QuoteFree(s: string) {
    forall k :: 0 <= k < |s| ==> s[k] != '"'
  }

  predicate EndsInBackslash(s: string) {
    s != [] && s[|s| - 1] == '\\'
  }

  predicate GapFine(gap: string) {
    QuoteFree(gap) && !EndsInBackslash(gap)
  }

  predicate GapsFine(slots: seq<Slot>) {
    forall k :: 0 <= k < |slots| ==> GapFine(slots[k].gap)
  }

  /** The condition under which every value is read back: only the last may end in a backslash. */
  predicate Readable(slots: seq<Slot>) {
    forall k :: 0 <= k < |slots| - 1 ==> !EndsInBackslash(slots[k].value)
  }

  // ---------------------------------------------------------------------------------------
  // Scanning
  // ---------------------------------------------------------------------------------------

  predicate HasAt(text: string, i: nat, s: string) {
    i + |s| <= |text| && forall k :: 0 <= k < |s| ==> text[i + k] == s[k]
  }

  /** A token that does not start with a quote stops before the next quote. */
  lemma MatchWithin(text: string, i: nat, j: nat)
    requires i < j <= |text| && (j < |text| ==> text[j] == '"')
    requires forall k :: i <= k < j ==> text[k] != '"'
    ensures MatchAt(text, i).Some? ==> MatchAt(text, i).value <= j
  {
    WordWithin(text, i, j, "AND");
    WordWithin(text, i, j, "OR");
    WordWithin(text, i, j, "NOT");
  }

  lemma WordWithin(text: string, i: nat, j: nat, word: string)
    requires i < j <= |text| && (j < |text| ==> text[j] == '"') && word != [] && QuoteFree(word)
    ensures HasWord(text, i, word) ==> i + |word| <= j
  {
    if HasWord(text, i, word) && j < i + |word| {
      WordHasNoQuote(text, i, word, j - i);
      assert false;
    }
  }

  lemma WordHasNoQuote(text: string, i: nat, word: string, k: nat)
    requires k < |word| && QuoteFree(word) && HasWord(text, i, word)
    ensures text[i + k] != '"'
  {
    assert text[i..i + |word|][k] == word[k];
  }

  /** Text without quotes contributes no value, wherever the reader enters it. */
  lemma {:induction false} SkipsGap(text: string, i: nat, j: nat)
    requires i <= j <= |text| && (j < |text| ==> text[j] == '"')
    requires forall k :: i <= k < j ==> text[k] != '"'
    ensures ValuesFrom(text, i) == ValuesFrom(text, j)
    decreases j - i
  {
    if i < j {
      MatchWithin(text, i, j);
      if MatchAt(text, i).Some? {
        SkipsGap(text, MatchAt(text, i).value, j);
      } else {
        SkipsGap(text, i + 1, j);
      }
    }
  }

  /** Escaping never starts with a bare quote, so it cannot complete an escape before it. */
  lemma EscapedHead(v: string)
    requires v != []
    ensures BooleanQuery.EscapeQuotes(v) != [] && BooleanQuery.EscapeQuotes(v)[0] != '"'
  {
  }

  /** The scanner passes an escaped value that does not end in a backslash and stops at its quote. */
  lemma {:induction false} ScansValue(text: string, i: nat, v: string, fallback: Option<nat>)
    requires HasAt(text, i, BooleanQuery.EscapeQuotes(v) + "\"") && !EndsInBackslash(v)
    requires fallback.Some? ==> fallback.value <= i
    ensures QuotedEnd(text, i, fallback) == Some(i + |BooleanQuery.EscapeQuotes(v)| + 1)
    decreases |v|
  {
    var e := BooleanQuery.EscapeQuotes(v) + "\"";
    assert text[i + 0] == e[0];
    if v != [] {
      var rest := BooleanQuery.EscapeQuotes(v[1..]) + "\"";
      if v[0] == '"' {
        assert e == "\\\"" + rest;
        assert text[i + 1] == e[1];
        HasAtTail(text, i, e, "\\\"", rest);
        ScansValue(text, i + 2, v[1..], Some(i + 2));
      } else {
        assert e == [v[0]] + rest;
        HasAtTail(text, i, e, [v[0]], rest);
        if v[0] == '\\' {
          EscapedHead(v[1..]);
          assert text[i + 1] == rest[0];
        }
        ScansValue(text, i + 1, v[1..], fallback);
      }
    }
  }

  lemma HasAtTail(text: string, i: nat, e: string, head: string, rest: string)
    requires HasAt(text, i, e) && e == head + rest
    ensures HasAt(text, i + |head|, rest)
  {
    forall k | 0 <= k < |rest| ensures text[i + |head| + k] == rest[k] {
      assert text[i + (|head| + k)] == e[|head| + k];
    }
  }

  /** A value that does end in a backslash swallows its closing quote as an escaped one. */
  lemma {:induction false} ScansPast(text: string, i: nat, v: string, fallback: Option<nat>)
    requires HasAt(text, i, BooleanQuery.EscapeQuotes(v) + "\"") && EndsInBackslash(v)
    requires fallback.Some? ==> fallback.value <= i
    ensures var p := i + |BooleanQuery.EscapeQuotes(v)| + 1;
            QuotedEnd(text, i, fallback) == QuotedEnd(text, p, Some(p))
    decreases |v|
  {
    hide BooleanQuery.EscapeQuotes;
    var e := BooleanQuery.EscapeQuotes(v) + "\"";
    var rest := BooleanQuery.EscapeQuotes(v[1..]) + "\"";
    var head := if v[0] == '"' then "\\\"" else [v[0]];
    EscapesFirst(v, "\"");
    assert text[i + 0] == e[0] && text[i + 1] == e[1];
    HasAtTail(text, i, e, head, rest);
    if v[0] == '"' {
      ScansPast(text, i + 2, v[1..], Some(i + 2));
    } else if |v| == 1 {
      EscapesNothing("\"");
    } else {
      EscapedHead(v[1..]);
      assert text[i + 1] == rest[0];
      ScansPast(text, i + 1, v[1..], fallback);
    }
  }

  /** From inside a quoted token, text without quotes is passed up to the next quote. */
  lemma {:induction false} ScansGap(text: string, i: nat, j: nat, fallback: Option<nat>)
    requires i <= j < |text| && text[j] == '"' && (i < j ==> text[j - 1] != '\\')
    requires forall k :: i <= k < j ==> text[k] != '"'
    requires fallback.Some? ==> fallback.value <= i
    ensures QuotedEnd(text, i, fallback) == Some(j + 1)
    decreases j - i
  {
    if i < j {
      ScansGap(text, i + 1, j, fallback);
    }
  }

  /** At the very end of the text a quote-free value may end in a backslash: the match falls back. */
  lemma {:induction false} ScansLast(text: string, i: nat, fallback: Option<nat>)
    requires i < |text| && text[|text| - 1] == '"'
    requires forall k :: i <= k < |text| - 1 ==> text[k] != '"'
    requires fallback.Some? ==> fallback.value <= i
    ensures QuotedEnd(text, i, fallback) == Some(|text|)
    decreases |text| - i
  {
    if i < |text| - 1 {
      if text[i] == '\\' && text[i + 1] == '"' {
        assert i + 2 == |text|;
      } else {
        ScansLast(text, i + 1, fallback);
      }
    }
  }

  // ---------------------------------------------------------------------------------------
  // Unescaping
  // ---------------------------------------------------------------------------------------

  /** Unescaping undoes escaping, also in front of text that cannot complete an escape. */
  lemma {:induction false} UnescapesPrefix(w: string, x: string)
    requires x != [] ==> x[0] != '"'
    ensures Unescape(BooleanQuery.EscapeQuotes(w) + x) == w + Unescape(x)
  {
    hide BooleanQuery.EscapeQuotes, Unescape;
    if w == [] {
      EscapesNothing(x);
    } else {
      UnescapesPrefix(w[1..], x);
      EscapesFirst(w, x);
      RestHead(w[1..], x);
      UnescapesFirst(w[0], BooleanQuery.EscapeQuotes(w[1..]) + x);
      assert w + Unescape(x) == [w[0]] + (w[1..] + Unescape(x));
    }
  }

  lemma EscapesNothing(x: string)
    ensures BooleanQuery.EscapeQuotes("") + x == x == "" + x
  {
  }

  lemma RestHead(w: string, x: string)
    requires x != [] ==> x[0] != '"'
    ensures var rest := BooleanQuery.EscapeQuotes(w) + x; rest != [] ==> rest[0] != '"'
  {
    if w != [] {
      EscapedHead(w);
    }
  }

  /** How a text is escaped from its first character on. */
  lemma EscapesFirst(w: string, x: string)
    requires w != []
    ensures BooleanQuery.EscapeQuotes(w) + x
         == (if w[0] == '"' then "\\\"" else [w[0]]) + (BooleanQuery.EscapeQuotes(w[1..]) + x)
  {
  }

  /** How it is unescaped again: a lone backslash stays as long as no quote follows it. */
  lemma UnescapesFirst(c: char, rest: string)
    requires rest != [] ==> rest[0] != '"'
    ensures Unescape((if c == '"' then "\\\"" else [c]) + rest) == [c] + Unescape(rest)
  {
    if c == '"' {
      assert ("\\\"" + rest)[2..] == rest;
    } else {
      assert ([c] + rest)[1..] == rest;
    }
  }

  lemma Unescapes(v: string)
    ensures Unescape(BooleanQuery.EscapeQuotes(v)) == v
  {
    UnescapesPrefix(v, []);
    assert BooleanQuery.EscapeQuotes(v) + [] == BooleanQuery.EscapeQuotes(v);
  }

  lemma {:induction false} EscapeAppend(a: string, b: string)
    ensures BooleanQuery.EscapeQuotes(a + b) == BooleanQuery.EscapeQuotes(a) + BooleanQuery.EscapeQuotes(b)
  {
    if a == [] {
      assert a + b == b;
    } else {
      assert (a + b)[1..] == a[1..] + b;
      EscapeAppend(a[1..], b);
    }
  }

  /** A swallowed closing quote shows: what is read is not the value. */
  lemma SwallowedQuoteShows(v: string, more: string)
    requires EndsInBackslash(v)
    ensures Unescape(BooleanQuery.EscapeQuotes(v) + "\"" + more) != v
  {
    var w := v[..|v| - 1];
    assert v == w + "\\";
    EscapeAppend(w, "\\");
    assert BooleanQuery.EscapeQuotes("\\") == "\\" + BooleanQuery.EscapeQuotes([]);
    var x := "\\\"" + more;
    assert BooleanQuery.EscapeQuotes(v) + "\"" + more == BooleanQuery.EscapeQuotes(w) + x;
    UnescapesPrefix(w, x);
    assert Unescape(x)[0] == '"';
    assert (w + Unescape(x))[|w|] == '"';
  }

  // ---------------------------------------------------------------------------------------
  // Slots read back
  // ---------------------------------------------------------------------------------------

  function EndOf(i: nat, slot: Slot): nat {
    i + |slot.gap| + |BooleanQuery.EscapeQuotes(slot.value)| + 2
  }

  /** The text from position i on is the rendering of these slots and nothing else. */
  predicate Follows(text: string, i: nat, slots: seq<Slot>)
    decreases |slots|
  {
    if slots == [] then i == |text|
    else
      && HasAt(text, i, slots[0].gap + Quoted(slots[0].value))
      && Follows(text, EndOf(i, slots[0]), slots[1..])
  }

  /** A quote-free stretch of text up to the opening quote of a value. */
  predicate OpensAt(text: string, i: nat, j: nat) {
    && i <= j < |text| && text[j] == '"'
    && (forall k :: i <= k < j ==> text[k] != '"') && (i < j ==> text[j - 1] != '\\')
  }

  /** Where the first slot of a text puts its quotes. */
  lemma FirstSlot(text: string, i: nat, slots: seq<Slot>)
    requires slots != [] && Follows(text, i, slots) && GapsFine(slots)
    ensures OpensAt(text, i, i + |slots[0].gap|)
    ensures HasAt(text, i + |slots[0].gap| + 1, BooleanQuery.EscapeQuotes(slots[0].value) + "\"")
    ensures HasAt(text, i, slots[0].gap)
    ensures EndOf(i, slots[0]) <= |text| && Follows(text, EndOf(i, slots[0]), slots[1..])
  {
    var gap, v := slots[0].gap, slots[0].value;
    var s := gap + Quoted(v);
    var e := BooleanQuery.EscapeQuotes(v) + "\"";
    assert s == gap + ("\"" + e);
    HasAtTail(text, i, s, gap, "\"" + e);
    HasAtTail(text, i + |gap|, "\"" + e, "\"", e);
    assert text[i + |gap| + 0] == ("\"" + e)[0];
    forall k | i <= k < i + |gap| ensures text[k] == gap[k - i] {
      assert text[i + (k - i)] == s[k - i];
    }
    forall k | 0 <= k < |gap| ensures text[i + k] == gap[k] {
      assert text[i + k] == s[k];
    }
    assert GapFine(gap);
  }

  lemma ReadsHere(text: string, i: nat, j: nat, end: nat)
    requires i <= j < |text| && text[j] == '"' && (forall k :: i <= k < j ==> text[k] != '"')
    requires end <= |text| && QuotedEnd(text, j + 1, None) == Some(end)
    ensures j < end
    ensures ValuesFrom(text, i) == [Unquote(text[j..end])] + ValuesFrom(text, end)
  {
    SkipsGap(text, i, j);
    assert MatchAt(text, j) == QuotedEnd(text, j + 1, None);
    assert FindToken(text, j) == Some((j, end));
  }

  lemma TokenContent(text: string, j: nat, content: string)
    requires HasAt(text, j + 1, content + "\"") && j < |text|
    ensures Unquote(text[j..j + |content| + 2]) == Unescape(content)
  {
    hide *;
    ContentAt(text, j + 1, content, "\"");
    UnquoteInside(text, j, |content|);
  }

  lemma UnquoteInside(text: string, j: nat, n: nat)
    requires j + n + 2 <= |text|
    ensures Unquote(text[j..j + n + 2]) == Unescape(text[j + 1..j + 1 + n])
  {
    hide Unescape;
    SubSlice(text, j, j + n + 2, 1, n + 1);
  }

  lemma ContentAt(text: string, i: nat, content: string, more: string)
    requires HasAt(text, i, content + more)
    ensures i + |content| + |more| <= |text| && text[i..i + |content|] == content
  {
    forall k | 0 <= k < |content| ensures text[i + k] == content[k] {
      assert text[i + k] == (content + more)[k];
    }
  }

  lemma ReadsValue(text: string, i: nat, j: nat, v: string)
    requires OpensAt(text, i, j) && !EndsInBackslash(v)
    requires HasAt(text, j + 1, BooleanQuery.EscapeQuotes(v) + "\"")
    ensures ValuesFrom(text, i) == [v] + ValuesFrom(text, j + |BooleanQuery.EscapeQuotes(v)| + 2)
  {
    hide BooleanQuery.EscapeQuotes, ValuesFrom, Unquote, Unescape, QuotedEnd, EndsInBackslash;
    ScansValue(text, j + 1, v, None);
    ReadsHere(text, i, j, j + |BooleanQuery.EscapeQuotes(v)| + 2);
    TokenContent(text, j, BooleanQuery.EscapeQuotes(v));
    Unescapes(v);
  }

  /** The last value is read back even if it ends in a backslash, as long as it has no quote. */
  lemma ReadsLastValue(text: string, i: nat, j: nat, v: string)
    requires OpensAt(text, i, j) && QuoteFree(v)
    requires HasAt(text, j + 1, v + "\"") && j + |v| + 2 == |text|
    ensures ValuesFrom(text, i) == [v]
  {
    hide Unescape, Unquote, BooleanQuery.EscapeQuotes;
    forall k | j + 1 <= k < |text| - 1 ensures text[k] != '"' {
      assert text[j + 1 + (k - j - 1)] == (v + "\"")[k - j - 1] == v[k - j - 1];
    }
    assert text[j + 1 + |v|] == (v + "\"")[|v|] == '"';
    ScansLast(text, j + 1, None);
    ReadsHere(text, i, j, |text|);
    TokenContent(text, j, v);
    EscapeNothing(v);
    Unescapes(v);
  }

  lemma {:induction false} EscapeNothing(v: string)
    requires QuoteFree(v)
    ensures BooleanQuery.EscapeQuotes(v) == v
  {
    if v != [] {
      EscapeNothing(v[1..]);
      assert v == [v[0]] + v[1..];
    }
  }

  /** A value that ends in a backslash is read together with all the text up to the next quote. */
  lemma MisreadsValue(text: string, i: nat, j: nat, v: string, more: string)
    requires OpensAt(text, i, j) && EndsInBackslash(v)
    requires HasAt(text, j + 1, BooleanQuery.EscapeQuotes(v) + "\"")
    requires var p := j + |BooleanQuery.EscapeQuotes(v)| + 2;
             HasAt(text, p, more) && OpensAt(text, p, p + |more|)
    ensures ValuesFrom(text, i) != [] && ValuesFrom(text, i)[0] != v
  {
    hide ValuesFrom, Unescape, Unquote, QuotedEnd, HasAt;
    var escaped := BooleanQuery.EscapeQuotes(v);
    var p := j + |escaped| + 2;
    ScansPast(text, j + 1, v, None);
    ScansGap(text, p, p + |more|, Some(p));
    ReadsHere(text, i, j, p + |more| + 1);
    MisreadContent(text, j, v, more);
  }

  lemma MisreadContent(text: string, j: nat, v: string, more: string)
    requires EndsInBackslash(v) && j < |text|
    requires HasAt(text, j + 1, BooleanQuery.EscapeQuotes(v) + "\"")
    requires var p := j + |BooleanQuery.EscapeQuotes(v)| + 2;
             HasAt(text, p, more) && OpensAt(text, p, p + |more|)
    ensures Unquote(text[j..j + |BooleanQuery.EscapeQuotes(v)| + |more| + 3]) != v
  {
    hide Unescape, Unquote, HasAt, BooleanQuery.EscapeQuotes, EndsInBackslash;
    var escaped := BooleanQuery.EscapeQuotes(v);
    HasAtThree(text, j + 1, escaped + "\"", more);
    TokenContent(text, j, escaped + "\"" + more);
    SwallowedQuoteShows(v, more);
  }

  lemma HasAtThree(text: string, i: nat, a: string, b: string)
    requires HasAt(text, i, a) && HasAt(text, i + |a|, b)
    requires i + |a| + |b| < |text| && text[i + |a| + |b|] == '"'
    ensures HasAt(text, i, a + b + "\"")
  {
    forall k | 0 <= k < |a| + |b| + 1 ensures text[i + k] == (a + b + "\"")[k] {
      if |a| <= k < |a| + |b| {
        assert text[i + |a| + (k - |a|)] == b[k - |a|];
      }
    }
  }

  /** The values are read back exactly when none but the last ends in a backslash. */
  lemma {:induction false} ReadsSlots(text: string, i: nat, slots: seq<Slot>)
    requires slots != [] && Follows(text, i, slots) && GapsFine(slots) && QuoteFree(slots[|slots| - 1].value)
    ensures i <= |text|
    ensures ValuesFrom(text, i) == Values(slots) <==> Readable(slots)
    decreases |slots|
  {
    hide BooleanQuery.EscapeQuotes, MatchAt, ValuesFrom, Unescape, OpensAt, HasAt, EndsInBackslash;
    FirstSlot(text, i, slots);
    var v, j, end := slots[0].value, i + |slots[0].gap|, EndOf(i, slots[0]);
    if |slots| == 1 {
      EscapeNothing(v);
      assert Follows(text, end, []);
      ReadsLastValue(text, i, j, v);
      assert Values(slots) == [v];
    } else if EndsInBackslash(v) {
      FirstSlot(text, end, slots[1..]);
      MisreadsValue(text, i, j, v, slots[1..][0].gap);
      assert Values(slots)[0] == v;
    } else {
      ReadsValue(text, i, j, v);
      ReadsSlots(text, end, slots[1..]);
      SameTail(ValuesFrom(text, end), slots);
      ReadableTail(slots);
    }
  }

  lemma SameTail(rest: seq<string>, slots: seq<Slot>)
    requires slots != []
    ensures [slots[0].value] + rest == Values(slots) <==> rest == Values(slots[1..])
  {
    assert Values(slots) == [slots[0].value] + Values(slots[1..]);
    assert ([slots[0].value] + rest)[1..] == rest;
    assert Values(slots)[1..] == Values(slots[1..]);
  }

  lemma ReadableTail(slots: seq<Slot>)
    requires |slots| >= 2 && !EndsInBackslash(slots[0].value)
    ensures Readable(slots) <==> Readable(slots[1..])
  {
    if Readable(slots[1..]) {
      forall k | 0 <= k < |slots| - 1 ensures !EndsInBackslash(slots[k].value) {
        if k > 0 {
          assert slots[1..][k - 1] == slots[k];
        }
      }
    }
  }

  lemma {:induction false} RenderFollows(text: string, i: nat, slots: seq<Slot>)
    requires i <= |text| && text[i..] == Render(slots)
    ensures Follows(text, i, slots)
    decreases |slots|
  {
    if slots != [] {
      var s := slots[0].gap + Quoted(slots[0].value);
      RenderHead(slots);
      forall k | 0 <= k < |s| ensures text[i + k] == s[k] {
        assert text[i..][k] == (s + Render(slots[1..]))[k];
      }
      assert text[i + |s|..] == text[i..][|s|..];
      assert EndOf(i, slots[0]) == i + |s|;
      RenderFollows(text, i + |s|, slots[1..]);
    }
  }

  lemma {:induction false} RenderHead(slots: seq<Slot>)
    requires slots != []
    ensures Render(slots) == slots[0].gap + Quoted(slots[0].value) + Render(slots[1..])
  {
    hide Quoted;
    var n := |slots| - 1;
    if n == 0 {
      assert slots[..0] == [] && Render(slots[..0]) == "";
    } else {
      RenderHead(slots[..n]);
      var head, middle := slots[0].gap + Quoted(slots[0].value), Render(slots[1..][..n - 1]);
      assert slots[..n][1..] == slots[1..][..n - 1];
      RenderAppends(slots);
      RenderAppends(slots[1..]);
      Regroup(head, middle, slots[n].gap, Quoted(slots[n].value));
    }
  }

  lemma RenderAppends(slots: seq<Slot>)
    requires slots != []
    ensures var n := |slots| - 1;
            Render(slots) == Render(slots[..n]) + slots[n].gap + Quoted(slots[n].value)
  {
  }

  lemma Regroup(a: string, b: string, c: string, d: string)
    ensures a + b + c + d == a + (b + c + d)
  {
  }
}
