/** The regular-expression fragments the job and project formatters use, each written
    out as the scan a backtracking matcher performs for that one pattern: where it
    matches first, how far its greedy parts reach and where its lazy group stops. */
module Patterns {
  import opened Text

  predicate IsDigit(c: char) { '0' <= c <= '9' }

  /** End of the run of decimal digits that starts at `i`. */
  function DigitEnd(s: string, i: nat): (r: nat)
    requires i <= |s|
    ensures i <= r <= |s|
    ensures forall k :: i <= k < r ==> IsDigit(s[k])
    ensures r == |s| || !IsDigit(s[r])
    decreases |s| - i
  {
    if i < |s| && IsDigit(s[i]) then DigitEnd(s, i + 1) else i
  }

  // ---- The numbered split -----------------------------------------------

  /** End of a match of `\d+\.\s+` followed by `suffix` at `q`, if there is one.
      Greedy `\d+` cannot give a digit back to the `.`, and greedy `\s+` cannot give
      white space back to a suffix that is empty or starts with a non-space. */
  function NumberedAt(s: string, q: nat, suffix: string): (r: Option<nat>)
    requires q <= |s|
    ensures r.Some? ==> q < r.value <= |s|
  {
    if q < |s| && IsDigit(s[q]) then
      var k := DigitEnd(s, q);
      if k + 1 < |s| && s[k] == '.' && IsSpace(s[k + 1]) then
        var e := SpaceEnd(s, k + 1);
        if StartsAt(s, e, suffix) then Some(e + |suffix|) else None
      else None
    else None
  }

  /** The scan of `String.prototype.split`: `p` is where the current chunk began,
      `q` the next position a match is tried at. */
  function SplitFrom(s: string, suffix: string, p: nat, q: nat): (r: seq<string>)
    requires p <= q <= |s|
    ensures |r| >= 1
    decreases |s| - q
  {
    if q == |s| then [s[p..]]
    else
      match NumberedAt(s, q, suffix)
      case Some(e) => [s[p..q]] + SplitFrom(s, suffix, e, e)
      case None => SplitFrom(s, suffix, p, q + 1)
  }

  /** `s.split(/\d+\.\s+suffix/)`. */
  function SplitNumbered(s: string, suffix: string): (r: seq<string>)
    ensures |r| >= 1
  {
    SplitFrom(s, suffix, 0, 0)
  }

  lemma {:induction false} SplitFromSkips(s: string, suffix: string, p: nat, q: nat, q': nat)
    requires p <= q <= q' <= |s|
    requires forall j :: q <= j < q' ==> NumberedAt(s, j, suffix).None?
    ensures SplitFrom(s, suffix, p, q) == SplitFrom(s, suffix, p, q')
    decreases q' - q
  {
    if q < q' {
      SplitFromSkips(s, suffix, p, q + 1, q');
    }
  }

  /** The chunk that begins at `p` runs to the next separator, and the scan resumes
      after it. */
  lemma SplitFromNext(s: string, suffix: string, p: nat, q: nat)
    requires p <= q < |s| && NumberedAt(s, q, suffix).Some?
    requires forall j :: p <= j < q ==> NumberedAt(s, j, suffix).None?
    ensures SplitFrom(s, suffix, p, p) ==
      [s[p..q]] + SplitFrom(s, suffix, NumberedAt(s, q, suffix).value, NumberedAt(s, q, suffix).value)
  {
    SplitFromSkips(s, suffix, p, p, q);
  }

  /** With no separator after `p`, the rest of the text is the last chunk. */
  lemma SplitFromLast(s: string, suffix: string, p: nat)
    requires p <= |s|
    requires forall j :: p <= j < |s| ==> NumberedAt(s, j, suffix).None?
    ensures SplitFrom(s, suffix, p, p) == [s[p..]]
  {
    SplitFromSkips(s, suffix, p, p, |s|);
  }

  /** `section.trim().length > 0`. */
  predicate HasText(s: string) { Trim(s) != "" }

  /** The chunks a formatter turns into records, in text order. */
  function Sections(s: string, suffix: string): (r: seq<string>)
    ensures forall x :: x in r ==> HasText(x)
  {
    Filter(SplitNumbered(s, suffix), HasText)
  }

  lemma SectionsOfEmpty(suffix: string)
    ensures Sections("", suffix) == []
  {
    assert SplitNumbered("", suffix) == [""];
    FilterSingleton("", HasText);
  }

  // ---- Bold labels: `\*\s*\*\*Label:\*\*\s+(.*?)(?=\*\s*\*\*|$)` with the `s` flag ----

  /** `\*\s*\*\*` at `t` when `gap` is 0, `\*\s+\*\*` when it is 1: a star, at least
      `gap` white-space characters, two stars. */
  predicate StarsAt(s: string, t: nat, gap: nat) {
    t < |s| && s[t] == '*' && SpaceEnd(s, t + 1) - (t + 1) >= gap && StartsAt(s, SpaceEnd(s, t + 1), "**")
  }

  /** End of `\*\s{gap,}\*\*Label:\*\*\s+` at `q`: where the captured group begins. */
  function BoldLabelEnd(s: string, q: nat, tag: string, gap: nat): (r: Option<nat>)
    ensures r.Some? ==> q < r.value <= |s|
  {
    if q < |s| && s[q] == '*' then
      var u := SpaceEnd(s, q + 1);
      var lit := "**" + tag + ":**";
      if u - (q + 1) >= gap && StartsAt(s, u, lit) && u + |lit| < |s| && IsSpace(s[u + |lit|]) then
        Some(SpaceEnd(s, u + |lit|))
      else None
    else None
  }

  /** The group of the leftmost match: from the end of the tag to the first
      position where the lookahead holds, or to the end of the text. */
  function BoldField(s: string, tag: string, gap: nat): (r: Option<string>)
    ensures r.None? <==> forall q :: 0 <= q < |s| ==> BoldLabelEnd(s, q, tag, gap).None?
  {
    var q := FirstFrom(|s|, 0, (j: nat) => BoldLabelEnd(s, j, tag, gap).Some?);
    if q == |s| then
      assert forall j: nat | j < |s| :: BoldLabelEnd(s, j, tag, gap).None? by {
        forall j: nat | j < |s| ensures BoldLabelEnd(s, j, tag, gap).None? {
          FirstFromBefore(|s|, 0, (j: nat) => BoldLabelEnd(s, j, tag, gap).Some?, j);
        }
      }
      None
    else
      var e := BoldLabelEnd(s, q, tag, gap).value;
      Some(s[e..FirstFrom(|s|, e, (t: nat) => StarsAt(s, t, gap))])
  }

  /** What the match yields, stated the way regular-expression semantics define it:
      the leftmost match position, and the shortest group after which the lookahead holds. */
  lemma BoldFieldIs(s: string, tag: string, gap: nat, q: nat, t: nat)
    requires q < |s| && BoldLabelEnd(s, q, tag, gap).Some?
    requires forall j :: 0 <= j < q ==> BoldLabelEnd(s, j, tag, gap).None?
    requires BoldLabelEnd(s, q, tag, gap).value <= t <= |s|
    requires forall k :: BoldLabelEnd(s, q, tag, gap).value <= k < t ==> !StarsAt(s, k, gap)
    requires t == |s| || StarsAt(s, t, gap)
    ensures BoldField(s, tag, gap) == Some(s[BoldLabelEnd(s, q, tag, gap).value..t])
  {
    FirstFromIs(|s|, 0, (j: nat) => BoldLabelEnd(s, j, tag, gap).Some?, q);
    FirstFromIs(|s|, BoldLabelEnd(s, q, tag, gap).value, (k: nat) => StarsAt(s, k, gap), t);
  }

  // ---- Plain labels: `Label\s*(.*?)(?=\s*Next|$)` with the `s` flag ----------

  /** The lookahead `(?=Next)`, or `(?=\s*Next)` when `spaced`; `None` is `$` alone. */
  predicate StopAt(s: string, t: nat, next: Option<string>, spaced: bool) {
    t <= |s| && next.Some? && StartsAt(s, if spaced then SpaceEnd(s, t) else t, next.value)
  }

  /** Where the group starts when the pattern matches at `q`. */
  function PlainLabelEnd(s: string, q: nat, tag: string): (r: Option<nat>)
    ensures r.Some? ==> q + |tag| <= r.value <= |s|
  {
    if StartsAt(s, q, tag) then Some(SpaceEnd(s, q + |tag|)) else None
  }

  /** The group of the leftmost match. The lazy group can always grow to the end of
      the text, so the pattern matches wherever the tag occurs, and the greedy
      `\s*` never gives anything back. */
  function PlainField(s: string, tag: string, next: Option<string>, spaced: bool): (r: Option<string>)
    ensures r.None? <==> forall q :: 0 <= q < |s| ==> PlainLabelEnd(s, q, tag).None?
  {
    var q := FirstFrom(|s|, 0, (j: nat) => PlainLabelEnd(s, j, tag).Some?);
    if q == |s| then
      assert forall j: nat | j < |s| :: PlainLabelEnd(s, j, tag).None? by {
        forall j: nat | j < |s| ensures PlainLabelEnd(s, j, tag).None? {
          FirstFromBefore(|s|, 0, (j: nat) => PlainLabelEnd(s, j, tag).Some?, j);
        }
      }
      None
    else
      var e := PlainLabelEnd(s, q, tag).value;
      Some(s[e..FirstFrom(|s|, e, (t: nat) => StopAt(s, t, next, spaced))])
  }

  lemma PlainFieldIs(s: string, tag: string, next: Option<string>, spaced: bool, q: nat, t: nat)
    requires q < |s| && PlainLabelEnd(s, q, tag).Some?
    requires forall j :: 0 <= j < q ==> PlainLabelEnd(s, j, tag).None?
    requires PlainLabelEnd(s, q, tag).value <= t <= |s|
    requires forall k :: PlainLabelEnd(s, q, tag).value <= k < t ==> !StopAt(s, k, next, spaced)
    requires t == |s| || StopAt(s, t, next, spaced)
    ensures PlainField(s, tag, next, spaced) == Some(s[PlainLabelEnd(s, q, tag).value..t])
  {
    FirstFromIs(|s|, 0, (j: nat) => PlainLabelEnd(s, j, tag).Some?, q);
    FirstFromIs(|s|, PlainLabelEnd(s, q, tag).value, (k: nat) => StopAt(s, k, next, spaced), t);
  }

  /** With no lookahead (`Label\s*(.*?)$`) the group runs to the end of the text. */
  lemma PlainFieldToEnd(s: string, tag: string, spaced: bool)
    ensures PlainField(s, tag, None, spaced).Some? ==>
      PlainField(s, tag, None, spaced).value ==
        s[PlainLabelEnd(s, FirstFrom(|s|, 0, (j: nat) => PlainLabelEnd(s, j, tag).Some?), tag).value..]
  {
    var q := FirstFrom(|s|, 0, (j: nat) => PlainLabelEnd(s, j, tag).Some?);
    if q < |s| {
      var e := PlainLabelEnd(s, q, tag).value;
      FirstFromIs(|s|, e, (t: nat) => StopAt(s, t, None, spaced), |s|);
    }
  }

  // ---- A labelled line: `Label\s*([^\n]+)` -------------------------------

  /** The last index in `[lo, hi)` that does not hold a line feed. */
  function LastNonNewline(s: string, lo: nat, hi: nat): (r: Option<nat>)
    requires lo <= hi <= |s|
    ensures r.Some? ==> lo <= r.value < hi && s[r.value] != '\n'
    ensures r.Some? ==> forall k :: r.value < k < hi ==> s[k] == '\n'
    ensures r.None? ==> forall k :: lo <= k < hi ==> s[k] == '\n'
    decreases hi
  {
    if lo == hi then None else if s[hi - 1] != '\n' then Some(hi - 1) else LastNonNewline(s, lo, hi - 1)
  }

  /** Where `([^\n]+)` starts when `Label\s*([^\n]+)` matches at `q`: right after the
      white space, or, when a line feed or the end follows it, at the last white-space
      character before that which is no line feed (greedy `\s*` gives it back). */
  function LabelLineStart(s: string, q: nat, tag: string): (r: Option<nat>)
    ensures r.Some? ==> q + |tag| <= r.value < |s| && s[r.value] != '\n'
  {
    if StartsAt(s, q, tag) then
      var j := SpaceEnd(s, q + |tag|);
      if j < |s| && s[j] != '\n' then Some(j) else LastNonNewline(s, q + |tag|, j)
    else None
  }

  /** The group of the leftmost match: a non-empty run without line feeds. */
  function LabelLine(s: string, tag: string): (r: Option<string>)
    ensures r.None? <==> forall q :: 0 <= q < |s| ==> LabelLineStart(s, q, tag).None?
    ensures r.Some? ==> |r.value| > 0 && '\n' !in r.value
  {
    var q := FirstFrom(|s|, 0, (j: nat) => LabelLineStart(s, j, tag).Some?);
    if q == |s| then
      assert forall j: nat | j < |s| :: LabelLineStart(s, j, tag).None? by {
        forall j: nat | j < |s| ensures LabelLineStart(s, j, tag).None? {
          FirstFromBefore(|s|, 0, (j: nat) => LabelLineStart(s, j, tag).Some?, j);
        }
      }
      None
    else
      var i := LabelLineStart(s, q, tag).value;
      Some(s[i..IndexOf(s, i, '\n')])
  }

  /** The text of a captured group after `.trim()`, or the formatter's default. */
  function FieldOr(m: Option<string>, default: string): (r: string)
    ensures m.None? ==> r == default
    ensures m.Some? ==> r == Trim(m.value)
  {
    match m
    case None => default
    case Some(v) => Trim(v)
  }
}
