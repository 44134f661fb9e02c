/** The text stripping that precedes JSON.parse when a model's answer is validated. */
module JsonCleanup {
  import opened Text

  predicate IsOpening(c: char) {
    c == '{' || c == '['
  }

  predicate IsClosing(c: char) {
    c == '}' || c == ']'
  }

  predicate IsBracket(c: char) {
    IsOpening(c) || IsClosing(c)
  }

  /** A slice of s outside which s has no bracket. */
  predicate KeepsBrackets(s: string, a: nat, b: nat) {
    a <= b <= |s| && forall i :: 0 <= i < |s| && !(a <= i < b) ==> !IsBracket(s[i])
  }

  // ---------------------------------------------------------------------------------------
  // The passes
  // ---------------------------------------------------------------------------------------

  /** The fence pattern on trimmed text: three backticks at each end, not overlapping. */
  predicate IsFenced(t: string) {
    var n := |t|;
    && n >= 6
    && t[0] == '`' && t[1] == '`' && t[2] == '`'
    && t[n - 3] == '`' && t[n - 2] == '`' && t[n - 1] == '`'
  }

  predicate HasJsonTag(t: string) {
    |t| >= 7 && t[3] == 'j' && t[4] == 's' && t[5] == 'o' && t[6] == 'n'
  }

  function SkipSpaces(t: string, i: nat): (j: nat)
    requires i <= |t|
    ensures i <= j <= |t| && AllSpace(t[i..j])
    ensures j < |t| ==> !IsSpace(t[j])
    decreases |t| - i
  {
    if i < |t| && IsSpace(t[i]) then SkipSpaces(t, i + 1) else i
  }

  lemma {:induction false} SkipStopsBy(t: string, i: nat, k: nat)
    requires i <= k < |t| && !IsSpace(t[k])
    ensures SkipSpaces(t, i) <= k
    decreases k - i
  {
    if i < k && IsSpace(t[i]) {
      SkipStopsBy(t, i + 1, k);
    }
  }

  /** Where the captured group starts: after an optional `json` tag and any white space. */
  function GroupStart(t: string): nat
    requires IsFenced(t)
  {
    SkipSpaces(t, if HasJsonTag(t) then 7 else 3)
  }

  /** Where it ends: before the closing fence, and before one newline in front of it. */
  function GroupEnd(t: string): nat
    requires IsFenced(t)
  {
    var q := |t| - 3;
    if q > GroupStart(t) && t[q - 1] == '\n' then q - 1 else q
  }

  lemma GroupInside(t: string)
    requires IsFenced(t)
    ensures 3 <= GroupStart(t) <= GroupEnd(t) <= |t| - 3
    ensures KeepsBrackets(t, GroupStart(t), GroupEnd(t))
  {
    var p := if HasJsonTag(t) then 7 else 3;
    SkipStopsBy(t, p, |t| - 3);
    forall i | p <= i < GroupStart(t) ensures IsSpace(t[i]) {
      assert t[p..GroupStart(t)][i - p] == t[i];
    }
  }

  /** Trim, then the inside of a fence trimmed again. */
  function Body(raw: string): string {
    var t := Trim(raw);
    if IsFenced(t) then
      GroupInside(t);
      Trim(t[GroupStart(t)..GroupEnd(t)])
    else t
  }

  /** The first opening bracket of either kind, -1 when there is none. */
  function FirstOpening(s: string): (r: int)
    ensures -1 <= r < |s|
    ensures r >= 0 ==> IsOpening(s[r]) && forall k :: 0 <= k < r ==> !IsOpening(s[k])
    ensures r == -1 ==> forall k :: 0 <= k < |s| ==> !IsOpening(s[k])
  {
    var o, a := IndexOf(s, '{'), IndexOf(s, '[');
    if o == -1 then a else if a == -1 then o else if o < a then o else a
  }

  function LastClosing(s: string): (r: int)
    ensures -1 <= r < |s|
    ensures r >= 0 ==> IsClosing(s[r]) && forall k :: r < k < |s| ==> !IsClosing(s[k])
    ensures r == -1 ==> forall k :: 0 <= k < |s| ==> !IsClosing(s[k])
  {
    var c, b := LastIndexOf(s, '}'), LastIndexOf(s, ']');
    if c > b then c else b
  }

  function CutLeading(s: string): string {
    if FirstOpening(s) > 0 then s[FirstOpening(s)..] else s
  }

  function CutTrailing(s: string): string {
    var l := LastClosing(s);
    if 0 <= l < |s| - 1 then s[..l + 1] else s
  }

  function Cleaned(raw: string): string {
    CutTrailing(CutLeading(Body(raw)))
  }

  // ---------------------------------------------------------------------------------------
  // One slice
  // ---------------------------------------------------------------------------------------

  lemma SliceOfSlice(s: string, a: nat, b: nat, c: nat, d: nat)
    requires KeepsBrackets(s, a, b) && KeepsBrackets(s[a..b], c, d)
    ensures KeepsBrackets(s, a + c, a + d) && s[a..b][c..d] == s[a + c..a + d]
  {
    forall i | 0 <= i < |s| && !(a + c <= i < a + d) ensures !IsBracket(s[i]) {
      if a <= i < b {
        assert s[a..b][i - a] == s[i];
      }
    }
    SubSlice(s, a, b, c, d);
  }

  lemma TrimKeepsBrackets(s: string) returns (a: nat, b: nat)
    ensures KeepsBrackets(s, a, b) && Trim(s) == s[a..b]
    ensures Trim(s) != [] ==> !IsSpace(s[a]) && !IsSpace(s[b - 1])
  {
    a, b := TrimSlice(s);
    forall i | 0 <= i < |s| && !(a <= i < b) ensures !IsBracket(s[i]) {
      assert if i < a then s[..a][i] == s[i] else s[b..][i - b] == s[i];
    }
  }

  /** Trimming and unfencing remove no bracket. */
  lemma BodySlice(raw: string) returns (a: nat, b: nat)
    ensures KeepsBrackets(raw, a, b) && Body(raw) == raw[a..b]
    ensures Body(raw) != [] ==> !IsSpace(raw[a]) && !IsSpace(raw[b - 1])
  {
    hide Trim, IsSpace, IsBracket, IsFenced, GroupStart, GroupEnd;
    a, b := TrimKeepsBrackets(raw);
    var t := Trim(raw);
    if IsFenced(t) {
      var c, d := UnfencedSlice(t);
      SliceOfSlice(raw, a, b, c, d);
      a, b := a + c, a + d;
    }
  }

  lemma UnfencedSlice(t: string) returns (c: nat, d: nat)
    requires IsFenced(t)
    ensures KeepsBrackets(t, c, d)
    ensures GroupStart(t) <= GroupEnd(t) <= |t| && Trim(t[GroupStart(t)..GroupEnd(t)]) == t[c..d]
    ensures c < d ==> !IsSpace(t[c]) && !IsSpace(t[d - 1])
  {
    hide Trim, IsSpace, IsFenced;
    GroupInside(t);
    hide GroupStart, GroupEnd, IsBracket;
    var p, q := GroupStart(t), GroupEnd(t);
    var e, f := TrimKeepsBrackets(t[p..q]);
    SliceOfSlice(t, p, q, e, f);
    c, d := p + e, p + f;
  }

  lemma FirstOpeningIs(s: string, k: nat)
    requires k < |s| && IsOpening(s[k]) && forall i :: 0 <= i < k ==> !IsOpening(s[i])
    ensures FirstOpening(s) == k
  {
  }

  lemma LastClosingIs(s: string, k: nat)
    requires k < |s| && IsClosing(s[k]) && forall i :: k < i < |s| ==> !IsClosing(s[i])
    ensures LastClosing(s) == k
  {
  }

  /** Brackets keep their place in a slice that keeps them all. */
  lemma FirstOpeningInSlice(s: string, a: nat, b: nat)
    requires KeepsBrackets(s, a, b) && FirstOpening(s) >= 0
    ensures a <= FirstOpening(s) < b && CutLeading(s[a..b]) == s[FirstOpening(s)..b]
  {
    var f := FirstOpening(s);
    FirstOpeningIs(s[a..b], f - a);
    assert s[a..b][f - a..] == s[f..b];
  }

  lemma LastClosingInSlice(s: string, a: nat, f: nat, b: nat)
    requires KeepsBrackets(s, a, b) && a <= f < LastClosing(s)
    ensures LastClosing(s) < b && CutTrailing(s[f..b]) == s[f..LastClosing(s) + 1]
  {
    var l := LastClosing(s);
    LastClosingIs(s[f..b], l - f);
    assert s[f..b][..l - f + 1] == s[f..l + 1];
  }

  /** All passes together are one slice: first opening bracket to last closing bracket. */
  lemma CleanedIsOneSlice(raw: string)
    requires 0 <= FirstOpening(raw) < LastClosing(raw)
    ensures Cleaned(raw) == raw[FirstOpening(raw)..LastClosing(raw) + 1]
  {
    var a, b := BodySlice(raw);
    FirstOpeningInSlice(raw, a, b);
    LastClosingInSlice(raw, a, FirstOpening(raw), b);
  }

  // ---------------------------------------------------------------------------------------
  // What comes out of any text
  // ---------------------------------------------------------------------------------------

  predicate Trimmed(s: string) {
    s == [] || (!IsSpace(s[0]) && !IsSpace(s[|s| - 1]))
  }

  lemma {:induction false} TrimStartPadded(pad: string, s: string)
    requires AllSpace(pad) && (s != [] ==> !IsSpace(s[0]))
    ensures TrimStart(pad + s) == s
  {
    if pad == [] {
      assert pad + s == s;
    } else {
      assert (pad + s)[1..] == pad[1..] + s;
      TrimStartPadded(pad[1..], s);
    }
  }

  lemma {:induction false} TrimEndPadded(s: string, pad: string)
    requires AllSpace(pad) && (s != [] ==> !IsSpace(s[|s| - 1]))
    ensures TrimEnd(s + pad) == s
  {
    if pad == [] {
      assert s + pad == s;
    } else {
      var n := |pad| - 1;
      assert (s + pad)[..|s| + n] == s + pad[..n];
      TrimEndPadded(s, pad[..n]);
    }
  }

  lemma TrimPadded(before: string, s: string, after: string)
    requires AllSpace(before) && AllSpace(after) && Trimmed(s)
    ensures Trim(before + s + after) == s
  {
    assert before + s + after == before + (s + after);
    if s == [] {
      assert before + (s + after) == (before + after) + [];
      TrimStartPadded(before + after, []);
    } else {
      TrimStartPadded(before, s + after);
      TrimEndPadded(s, after);
    }
  }

  lemma {:induction false} SkipsPad(t: string, i: nat, j: nat)
    requires i <= j <= |t| && (forall k :: i <= k < j ==> IsSpace(t[k])) && (j < |t| ==> !IsSpace(t[j]))
    ensures SkipSpaces(t, i) == j
    decreases j - i
  {
    if i < j {
      SkipsPad(t, i + 1, j);
    }
  }

  /** Three backticks at each end; between them, after `json` or not, white space, the content t[i..j]
      and white space. */
  predicate IsBlock(t: string, tagged: bool, i: nat, j: nat) {
    var p, q := if tagged then 7 else 3, |t| - 3;
    && p <= i <= j <= q
    && t[..3] == "```" && t[q..] == "```"
    && (tagged <==> |t| >= 7 && t[3..7] == "json")
    && (forall k :: p <= k < i ==> IsSpace(t[k])) && (forall k :: j <= k < q ==> IsSpace(t[k]))
    && (if i == j then j == q else !IsSpace(t[i]) && !IsSpace(t[j - 1]))
  }

  lemma BlockParts(t: string, tagged: bool, i: nat, j: nat)
    requires IsBlock(t, tagged, i, j)
    ensures IsFenced(t) && Trimmed(t) && GroupStart(t) == i
  {
    assert t[0] == t[..3][0] && t[1] == t[..3][1] && t[2] == t[..3][2];
    if |t| >= 7 {
      assert forall k :: 0 <= k < 4 ==> t[3..7][k] == t[3 + k];
      TagIs(t);
    }
    hide IsSpace;
    SkipsPad(t, if tagged then 7 else 3, i);
  }

  lemma TagIs(t: string)
    requires |t| >= 7
    ensures HasJsonTag(t) <==> t[3..7] == "json"
  {
    var tag := t[3..7];
    assert tag[0] == t[3] && tag[1] == t[4] && tag[2] == t[5] && tag[3] == t[6];
  }

  /** A fenced block, with or without the `json` tag and with any white space around and inside it, gives
      its content. */
  lemma FencedGivesContent(before: string, t: string, after: string, tagged: bool, i: nat, j: nat)
    requires AllSpace(before) && AllSpace(after) && IsBlock(t, tagged, i, j)
    ensures Body(before + t + after) == t[i..j]
  {
    BlockParts(t, tagged, i, j);
    TrimPadded(before, t, after);
    hide IsSpace, IsFenced, Trim, GroupStart;
    GroupInside(t);
    BlockContent(t, tagged, i, j);
  }

  lemma BlockContent(t: string, tagged: bool, i: nat, j: nat)
    requires IsBlock(t, tagged, i, j) && IsFenced(t) && GroupStart(t) == i
    ensures i <= GroupEnd(t) <= |t| && Trim(t[i..GroupEnd(t)]) == t[i..j]
  {
    hide GroupStart;
    var e := GroupEnd(t);
    assert j <= e;
    assert t[i..e] == "" + t[i..j] + t[j..e];
    hide GroupEnd, IsFenced, IsSpace, Trim;
    TrimPadded("", t[i..j], t[j..e]);
  }

  /** Any other text gives itself, trimmed. */
  lemma UnfencedGivesItself(before: string, s: string, after: string)
    requires AllSpace(before) && AllSpace(after) && Trimmed(s)
    requires |s| >= 6 && s[..3] == "```" ==> s[|s| - 3..] != "```"
    ensures Body(before + s + after) == s
  {
    TrimPadded(before, s, after);
    hide Trim;
    FenceIs(s);
  }

  lemma FenceIs(s: string)
    ensures IsFenced(s) ==> s[..3] == "```" && s[|s| - 3..] == "```"
  {
  }

  /** What is left of that: from its first opening bracket, or its start if it has none, to the last
      closing bracket from there on, or its end if it has none. */
  lemma CleanedCutsAtBrackets(raw: string) returns (p: nat, q: nat)
    ensures var s := Body(raw);
            && p <= q <= |s| && Cleaned(raw) == s[p..q]
            && (forall k :: 0 <= k < p ==> s[k] != '{' && s[k] != '[')
            && ((p == 0 && (forall k :: 0 <= k < |s| ==> s[k] != '{' && s[k] != '['))
                || (p < |s| && (s[p] == '{' || s[p] == '[')))
            && (forall k :: q <= k < |s| ==> s[k] != '}' && s[k] != ']')
            && ((q == |s| && (forall k :: p <= k < |s| ==> s[k] != '}' && s[k] != ']'))
                || (p < q && (s[q - 1] == '}' || s[q - 1] == ']')))
  {
    var s := Body(raw);
    var f := FirstOpening(s);
    p := if f > 0 then f else 0;
    q := CutsAtClosing(s, p);
    hide Body, FirstOpening;
  }

  lemma CutsAtClosing(s: string, p: nat) returns (q: nat)
    requires p <= |s|
    ensures p <= q <= |s| && CutTrailing(s[p..]) == s[p..q]
    ensures forall k :: q <= k < |s| ==> s[k] != '}' && s[k] != ']'
    ensures (q == |s| && (forall k :: p <= k < |s| ==> s[k] != '}' && s[k] != ']'))
            || (p < q && (s[q - 1] == '}' || s[q - 1] == ']'))
  {
    var cut := s[p..];
    var l := LastClosing(cut);
    hide LastClosing;
    q := if l >= 0 then p + l + 1 else |s|;
    assert forall k :: p <= k < |s| ==> s[k] == cut[k - p];
    assert cut[..q - p] == s[p..q];
  }

  // ---------------------------------------------------------------------------------------
  // Cleaning twice
  // ---------------------------------------------------------------------------------------

  /** No white space at the ends, nothing in front of the first opening bracket and nothing behind the
      last closing one. */
  predicate IsClean(s: string) {
    s == [] || (!IsSpace(s[0]) && !IsSpace(s[|s| - 1]) && FirstOpening(s) <= 0 && LastClosing(s) in {-1, |s| - 1})
  }

  lemma TrailingCutCleans(cut: string)
    requires cut == [] || (!IsSpace(cut[0]) && !IsSpace(cut[|cut| - 1]) && FirstOpening(cut) <= 0)
    ensures IsClean(CutTrailing(cut))
    ensures cut != [] ==> CutTrailing(cut) != [] && CutTrailing(cut)[0] == cut[0]
  {
    var l := LastClosing(cut);
    if 0 <= l < |cut| - 1 {
      LastClosingIs(cut[..l + 1], l);
      if FirstOpening(cut) == 0 {
        FirstOpeningIs(cut[..l + 1], 0);
      }
    }
  }

  lemma LeadingCut(body: string)
    requires body == [] || (!IsSpace(body[0]) && !IsSpace(body[|body| - 1]))
    ensures var cut := CutLeading(body);
            cut == [] || (!IsSpace(cut[0]) && !IsSpace(cut[|cut| - 1]) && FirstOpening(cut) <= 0)
  {
    hide IsSpace, IsOpening, FirstOpening;
    var f := FirstOpening(body);
    if f > 0 {
      NoSpaceOpens(body[f]);
      FirstOpeningIs(body[f..], 0);
    }
  }

  lemma NoSpaceOpens(c: char)
    ensures IsOpening(c) ==> !IsSpace(c)
  {
  }

  lemma LeadingCutCleans(raw: string)
    ensures var cut := CutLeading(Body(raw));
            && (cut == [] || (!IsSpace(cut[0]) && !IsSpace(cut[|cut| - 1]) && FirstOpening(cut) <= 0))
            && (FirstOpening(raw) >= 0 ==> cut != [] && IsOpening(cut[0]))
  {
    hide Body, CutLeading, IsSpace;
    var a, b := BodySlice(raw);
    LeadingCut(Body(raw));
    if FirstOpening(raw) >= 0 {
      FirstOpeningInSlice(raw, a, b);
    }
  }

  lemma CleanUnlessFenced(s: string)
    requires IsClean(s)
    ensures Cleaned(s) == s <==> !IsFenced(s)
  {
    if s != [] {
      TrimUntouched(s);
      if IsFenced(s) {
        GroupInside(s);
        var a, b := TrimSlice(s[GroupStart(s)..GroupEnd(s)]);
        assert |Cleaned(s)| < |s|;
      }
    }
  }

  /** In terms of the first result: cleaning twice is cleaning once unless it is itself a fenced block. */
  lemma IdempotentIffNotFenced(raw: string)
    ensures Cleaned(Cleaned(raw)) == Cleaned(raw) <==> !IsFenced(Cleaned(raw))
  {
    hide Body, CutLeading, CutTrailing, FirstOpening, IsClean, IsFenced;
    LeadingCutCleans(raw);
    TrailingCutCleans(CutLeading(Body(raw)));
    CleanUnlessFenced(Cleaned(raw));
  }

  /** So it always is for text with an opening bracket. */
  lemma CleanedIsIdempotent(raw: string)
    requires FirstOpening(raw) >= 0
    ensures Cleaned(Cleaned(raw)) == Cleaned(raw)
  {
    hide Body, CutLeading, CutTrailing, FirstOpening, IsClean;
    LeadingCutCleans(raw);
    TrailingCutCleans(CutLeading(Body(raw)));
    IdempotentIffNotFenced(raw);
  }

  predicate HasBracket(s: string) {
    FirstOpening(s) >= 0 || LastClosing(s) >= 0
  }

  /** No bracket is lost or invented before the cuts. */
  lemma BodyKeepsBrackets(raw: string)
    ensures FirstOpening(Body(raw)) == -1 <==> FirstOpening(raw) == -1
    ensures LastClosing(Body(raw)) == -1 <==> LastClosing(raw) == -1
  {
    hide Body, FirstOpening, LastClosing;
    var a, b := BodySlice(raw);
    var o, c := FirstOpening(raw), LastClosing(raw);
    assert o >= 0 ==> a <= o < b && raw[a..b][o - a] == raw[o];
    assert c >= 0 ==> a <= c < b && raw[a..b][c - a] == raw[c];
    assert forall i :: 0 <= i < b - a ==> raw[a..b][i] == raw[a + i];
  }

  /** A closing bracket ends the result when nothing opens one. */
  lemma ClosingIsNotFenced(raw: string)
    requires FirstOpening(raw) == -1 && LastClosing(raw) >= 0
    ensures !IsFenced(Cleaned(raw))
  {
    BodyKeepsBrackets(raw);
    hide Body, FirstOpening, LastClosing;
    var body := Body(raw);
    assert CutLeading(body) == body;
    assert IsClosing(Cleaned(raw)[|Cleaned(raw)| - 1]);
  }

  /** Cleaning twice is not cleaning once exactly for a text without any bracket that is a fenced block
      whose inside, trimmed, is a fenced block again. */
  lemma TwiceDiffersIff(raw: string)
    ensures Cleaned(Cleaned(raw)) != Cleaned(raw)
            <==> !HasBracket(raw) && IsFenced(Trim(raw)) && IsFenced(Body(raw))
  {
    hide FirstOpening, LastClosing, IsFenced, Trim, GroupStart, GroupEnd;
    IdempotentIffNotFenced(raw);
    if FirstOpening(raw) >= 0 {
      CleanedIsIdempotent(raw);
    } else if LastClosing(raw) >= 0 {
      ClosingIsNotFenced(raw);
    } else {
      BodyKeepsBrackets(raw);
      assert Cleaned(raw) == Body(raw);
    }
  }

  function Fenced(s: string): string {
    "```" + s + "```"
  }

  /** A fence inside a fence is stripped one layer at a time. */
  lemma TwoFencesTakeTwo()
    ensures Cleaned(Fenced(Fenced("a"))) == Fenced("a") && Cleaned(Fenced("a")) == "a"
  {
    hide Cleaned, FirstOpening;
    UnfencedOnce("a");
    UnfencedOnce(Fenced("a"));
  }

  lemma UnfencedOnce(s: string)
    requires s != [] && s[0] != 'j' && !IsSpace(s[0]) && !IsSpace(s[|s| - 1])
    requires forall i :: 0 <= i < |s| ==> !IsBracket(s[i])
    ensures Cleaned(Fenced(s)) == s
  {
    var t := Fenced(s);
    assert t[3] == s[0] && t[2 + |s|] == s[|s| - 1];
    TrimUntouched(t);
    assert GroupStart(t) == 3 && GroupEnd(t) == 3 + |s|;
    assert t[3..3 + |s|] == s;
    TrimUntouched(s);
    assert FirstOpening(s) == -1 && LastClosing(s) == -1;
  }

  // ---------------------------------------------------------------------------------------
  // The statements
  // ---------------------------------------------------------------------------------------

  /** The statements before JSON.parse, reassigning the text pass by pass. */
  method StripToJson(raw: string) returns (text: string)
    ensures text == Cleaned(raw)
    ensures 0 <= FirstOpening(raw) < LastClosing(raw) ==>
              text == raw[FirstOpening(raw)..LastClosing(raw) + 1]
  {
    text := Trim(raw);
    if IsFenced(text) {
      GroupInside(text);
      text := Trim(text[GroupStart(text)..GroupEnd(text)]);
    }
    text := StripLeading(text);
    text := StripTrailing(text);
    if 0 <= FirstOpening(raw) < LastClosing(raw) {
      CleanedIsOneSlice(raw);
    }
  }

  method StripLeading(body: string) returns (text: string)
    ensures text == CutLeading(body)
  {
    text := body;
    var firstObj, firstArr := IndexOf(text, '{'), IndexOf(text, '[');
    var candidates: seq<int> := [];
    if firstObj != -1 {
      candidates := candidates + [firstObj];
    }
    if firstArr != -1 {
      candidates := candidates + [firstArr];
    }
    if |candidates| > 0 {
      var firstBracket := if |candidates| == 2 && candidates[1] < candidates[0] then candidates[1] else candidates[0];
      if firstBracket > 0 {
        text := text[firstBracket..];
      }
    }
  }

  method StripTrailing(body: string) returns (text: string)
    ensures text == CutTrailing(body)
  {
    text := body;
    var lastObj, lastArr := LastIndexOf(text, '}'), LastIndexOf(text, ']');
    var lastBracket := if lastObj > lastArr then lastObj else lastArr;
    if lastBracket >= 0 && lastBracket < |text| - 1 {
      text := text[..lastBracket + 1];
    }
  }
}
