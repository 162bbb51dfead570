/** The missing-skills parser of the results page: free text from the resume
    analysis becomes an ordered list of skill names, by the first of three
    splitting strategies that yields anything. */
module SkillsParser {
  import opened Text

  const Header := "Missing Skills:"

  predicate NonEmpty(s: string) { |s| > 0 }

  /** `.replace(/Missing Skills:/i, "")`: the first occurrence, in any ASCII case, is removed. */
  function RemoveHeader(s: string): (r: string)
    ensures |r| == |s| || |r| == |s| - |Header|
  {
    var i := FirstFrom(|s|, 0, (j: nat) => StartsAtCI(s, j, Header));
    if i < |s| then s[..i] + s[i + |Header|..] else s
  }

  /** Without the header anywhere, the text is unchanged. */
  lemma RemoveHeaderAbsent(s: string)
    requires forall j :: 0 <= j < |s| ==> !StartsAtCI(s, j, Header)
    ensures RemoveHeader(s) == s
  {
    var p := (j: nat) => StartsAtCI(s, j, Header);
    FirstFromIs(|s|, 0, p, |s|);
  }

  /** The header goes at its first occurrence. */
  lemma RemoveHeaderAt(s: string, i: nat)
    requires StartsAtCI(s, i, Header)
    requires forall j :: 0 <= j < i ==> !StartsAtCI(s, j, Header)
    ensures RemoveHeader(s) == s[..i] + s[i + |Header|..]
  {
    var p := (j: nat) => StartsAtCI(s, j, Header);
    FirstFromIs(|s|, 0, p, i);
  }

  /** Index of the last `\n` before `e`, if any. */
  function LastNewlineBefore(s: string, e: nat): (r: Option<nat>)
    requires e <= |s|
    ensures r.Some? ==> r.value < e && s[r.value] == '\n'
    ensures r.Some? ==> forall k :: r.value < k < e ==> s[k] != '\n'
    ensures r.None? ==> forall k :: 0 <= k < e ==> s[k] != '\n'
  {
    if e == 0 then None else if s[e - 1] == '\n' then Some(e - 1) else LastNewlineBefore(s, e - 1)
  }

  /** `.replace(/^\s*\n/, "")`: the greedy `\s*` backs off to the last line break of
      the leading white space, and everything up to that break goes. */
  function StripLeadingBlankLine(s: string): (r: string)
  {
    match LastNewlineBefore(s, SpaceEnd(s, 0))
    case None => s
    case Some(j) => s[j + 1..]
  }

  /** The cleaned response every stage works on. */
  function Clean(s: string): string {
    Trim(StripLeadingBlankLine(RemoveHeader(s)))
  }

  /** Removing a leading blank line never changes the trimmed text. */
  lemma TrimOfStrippedBlankLine(h: string)
    ensures Trim(StripLeadingBlankLine(h)) == Trim(h)
  {
    match LastNewlineBefore(h, SpaceEnd(h, 0)) {
      case None =>
      case Some(j) =>
        assert h == h[..j + 1] + h[j + 1..];
        TrimOfBlankPrefix(h[..j + 1], h[j + 1..]);
    }
  }

  /** The second `replace` of the cleaning chain is subsumed by `trim`. */
  lemma CleanIsTrimmedWithoutHeader(s: string)
    ensures Clean(s) == Trim(RemoveHeader(s))
  {
    TrimOfStrippedBlankLine(RemoveHeader(s));
  }

  // ---- Stage 1: bullets -------------------------------------------------

  predicate IsBullet(c: char) { c == '•' || c == '*' || c == '-' }

  predicate HasBullet(s: string) { exists i :: 0 <= i < |s| && IsBullet(s[i]) }

  /** `.replace(/:\s*.*$/, "")`: the match starts at the first colon after which,
      once the white space `\s*` takes is skipped, only characters that `.` matches
      remain up to the end; from there on the text goes. */
  function CutColonTail(s: string): (r: string)
    ensures |r| <= |s| && r == s[..|r|]
  {
    s[..FirstFrom(|s|, 0, (j: nat) => ColonTailAt(s, j))]
  }

  /** `:\s*.*$` matches at `j`: a colon, then white space, then no line terminator
      up to the end. */
  predicate ColonTailAt(s: string, j: nat) {
    j < |s| && s[j] == ':' && NoLineTerminator(s[SpaceEnd(s, j + 1)..])
  }

  /** The cut is at the first colon where `:\s*.*$` matches, and without one the
      item is unchanged. */
  lemma CutColonTailAt(s: string)
    ensures |CutColonTail(s)| < |s| ==> ColonTailAt(s, |CutColonTail(s)|)
    ensures forall j :: 0 <= j < |CutColonTail(s)| ==> !ColonTailAt(s, j)
    ensures (forall j :: 0 <= j < |s| ==> !ColonTailAt(s, j)) ==> CutColonTail(s) == s
  {
    var p := (j: nat) => ColonTailAt(s, j);
    var q := FirstFrom(|s|, 0, p);
    forall j: nat | j < q ensures !ColonTailAt(s, j) { FirstFromBefore(|s|, 0, p, j); }
  }

  /** `.replace(/\.$/, "")`: one final full stop goes. */
  function DropFinalDot(s: string): (r: string)
    ensures |r| <= |s| && r == s[..|r|]
    ensures |r| == |s| || |r| == |s| - 1
    ensures |r| == |s| - 1 <==> |s| > 0 && s[|s| - 1] == '.'
  {
    if |s| > 0 && s[|s| - 1] == '.' then s[..|s| - 1] else s
  }

  function BulletItem(segment: string): string {
    Trim(DropFinalDot(CutColonTail(segment)))
  }

  /** `split(/[•*-]\s*\/)`, then trim, drop empties, strip the explanation and the
      final full stop, trim again and drop empties. The white space `\s*` swallows
      after a marker is white space the following `trim` removes anyway, so the
      split is on the marker characters alone. */
  function BulletItems(c: string): seq<string> {
    Filter(Map(Filter(Map(Split(c, IsBullet), Trim), NonEmpty), BulletItem), NonEmpty)
  }

  function BulletStage(c: string): seq<string> {
    if HasBullet(c) then BulletItems(c) else []
  }

  // ---- Stage 2: sentences -----------------------------------------------

  predicate IsSentenceBreak(c: char) { c == '.' || c == '\n' }

  predicate SentenceSized(s: string) { 0 < |s| < 100 }

  /** `skill.match(/^([^(:]+)/)`: the run before the first `(` or `:`, trimmed;
      when the text starts with one of them there is no match and it is kept whole. */
  function LeadingPhrase(s: string): (r: string)
    ensures |r| <= |s|
    ensures forall c :: c in r ==> c in s
  {
    var k := FirstFrom(|s|, 0, (j: nat) => j < |s| && (s[j] == '(' || s[j] == ':'));
    if k > 0 then Trim(s[..k]) else Trim(s)
  }

  /** The phrase stops before the first `(` or `:`; without either the whole item is
      kept, trimmed, and so it is when the item starts with one (no match). */
  lemma LeadingPhraseCut(s: string)
    ensures |s| > 0 && s[0] != '(' && s[0] != ':' ==> '(' !in LeadingPhrase(s) && ':' !in LeadingPhrase(s)
    ensures '(' !in s && ':' !in s ==> LeadingPhrase(s) == Trim(s)
    ensures |s| > 0 && (s[0] == '(' || s[0] == ':') ==> LeadingPhrase(s) == Trim(s)
  {
    var p := (j: nat) => j < |s| && (s[j] == '(' || s[j] == ':');
    var k := FirstFrom(|s|, 0, p);
    forall j: nat | j < k ensures s[j] != '(' && s[j] != ':' { FirstFromBefore(|s|, 0, p, j); }
    assert forall c :: c in s[..k] ==> c != '(' && c != ':';
    assert k == |s| ==> s[..k] == s;
  }

  /** When the item does not start with `(` or `:`, the phrase is the trimmed run
      before the first of them, or the whole item trimmed when it has neither. */
  lemma LeadingPhraseAt(s: string, k: nat)
    requires 0 < k <= |s|
    requires forall j :: 0 <= j < k ==> s[j] != '(' && s[j] != ':'
    requires k == |s| || s[k] == '(' || s[k] == ':'
    ensures LeadingPhrase(s) == Trim(s[..k])
  {
    var p := (j: nat) => j < |s| && (s[j] == '(' || s[j] == ':');
    FirstFromIs(|s|, 0, p, k);
  }

  function SentenceItems(c: string): seq<string> {
    Filter(Map(Filter(Map(Split(c, IsSentenceBreak), Trim), SentenceSized), LeadingPhrase), NonEmpty)
  }

  // ---- Stage 3: lines ---------------------------------------------------

  predicate IsNewline(c: char) { c == '\n' }

  predicate NotBlankLine(l: string) { Trim(l) != "" }

  /** `.replace(/^-\s*\/, "")`: a leading dash and the white space after it go. */
  function StripDash(l: string): string {
    if |l| > 0 && l[0] == '-' then l[SpaceEnd(l, 1)..] else l
  }

  function LineItem(l: string): string { Trim(StripDash(l)) }

  /** `split("\n")`, drop blank lines, strip a leading dash, trim. */
  function LineItems(c: string): seq<string> {
    Map(Filter(Split(c, IsNewline), NotBlankLine), LineItem)
  }

  /** One line, with no white space at either end. */
  predicate TrimmedLine(x: string) {
    '\n' !in x && (x == [] || (!IsSpace(x[0]) && !IsSpace(x[|x| - 1])))
  }

  /** The item of one line keeps only characters of that line, trimmed. */
  lemma LineItemShape(l: string)
    requires forall j :: 0 <= j < |l| ==> !IsNewline(l[j])
    ensures TrimmedLine(LineItem(l))
  {
    var d := StripDash(l);
    var k := |l| - |d|;
    assert d == l[k..];
    var o := TrimIsSlice(d);
    var x := Trim(d);
    forall j | 0 <= j < |x| ensures x[j] != '\n' {
      assert x[j] == l[k + o + j];
    }
  }

  lemma LineItemShapeAt(c: string, i: nat)
    requires i < |LineItems(c)|
    ensures TrimmedLine(LineItems(c)[i])
  {
    var parts := Split(c, IsNewline);
    var k := FilterSource(parts, NotBlankLine, i);
    LineItemShape(parts[k]);
  }

  /** Every line item is one line: no line feed, no white space at either end. */
  lemma LineItemsShape(c: string)
    ensures forall i :: 0 <= i < |LineItems(c)| ==> TrimmedLine(LineItems(c)[i])
  {
    forall i | 0 <= i < |LineItems(c)| ensures TrimmedLine(LineItems(c)[i]) {
      LineItemShapeAt(c, i);
    }
  }

  // ---- The parser -------------------------------------------------------

  /** The three stages on the cleaned text: the first that yields anything wins. */
  function Stages(c: string): seq<string> {
    var bullets := BulletStage(c);
    if |bullets| > 0 then bullets
    else
      var sentences := SentenceItems(c);
      if |sentences| > 0 then sentences else LineItems(c)
  }

  /** `parseSkillsResponse`. `None` stands for a missing or non-string field. */
  function ParseSkillsResponse(response: Option<string>): seq<string> {
    match response
    case None => []
    case Some(s) => if s == "" then [] else Stages(Clean(s))
  }

  /** The call of `parseSkillsResponse` a handler makes. */
  method ParseSkills(response: Option<string>) returns (r: seq<string>)
    ensures r == ParseSkillsResponse(response)
  {
    r := ParseSkillsResponse(response);
  }

  /** The stages run in order, each only when the ones before it found nothing. */
  lemma StageOrder(c: string)
    ensures HasBullet(c) && |BulletItems(c)| > 0 ==> Stages(c) == BulletItems(c)
    ensures |BulletStage(c)| == 0 && |SentenceItems(c)| > 0 ==> Stages(c) == SentenceItems(c)
    ensures |BulletStage(c)| == 0 && |SentenceItems(c)| == 0 ==> Stages(c) == LineItems(c)
  {
  }

  /** A non-empty trimmed text always has a non-blank line, so the line stage is non-empty. */
  lemma LineItemsNonEmpty(c: string)
    requires c != [] && !IsSpace(c[0])
    ensures |LineItems(c)| > 0
  {
    SplitKeepsNonSeparator(c, IsNewline, 0);
    var parts := Split(c, IsNewline);
    var k :| 0 <= k < |parts| && c[0] in parts[k];
    var line := parts[k];
    assert !IsBlank(line) by {
      var i :| 0 <= i < |line| && line[i] == c[0];
    }
    TrimEmptyIffBlank(line);
    assert NotBlankLine(line);
    assert line in parts;
    assert line in Filter(parts, NotBlankLine);
  }

  lemma SentenceItemsOfEmpty()
    ensures SentenceItems("") == []
  {
    var parts := Split("", IsSentenceBreak);
    assert parts == [""];
    var trimmed := Map(parts, Trim);
    assert trimmed == [""];
    var kept := Filter(trimmed, SentenceSized);
    assert kept == [];
    assert Map(kept, LeadingPhrase) == [];
    assert Filter(Map(kept, LeadingPhrase), NonEmpty) == [];
  }

  lemma LineItemsOfEmpty()
    ensures LineItems("") == []
  {
    var parts := Split("", IsNewline);
    assert parts == [""];
    assert !NotBlankLine("");
    var kept := Filter(parts, NotBlankLine);
    assert kept == [];
    assert Map(kept, LineItem) == [];
  }

  lemma StagesOfEmpty()
    ensures Stages("") == []
  {
    assert BulletStage("") == [];
    SentenceItemsOfEmpty();
    LineItemsOfEmpty();
  }

  /** Some stage finds an item in any non-empty trimmed text: the line stage at least. */
  lemma StagesOfText(c: string)
    requires c != [] && !IsSpace(c[0])
    ensures Stages(c) != []
  {
    LineItemsNonEmpty(c);
  }

  lemma CleanOfEmpty()
    ensures Clean("") == ""
  {
    assert RemoveHeader("") == "";
  }

  /** The parser returns no skills exactly when the cleaned text is empty. */
  lemma ParseEmptyIffCleanEmpty(s: string)
    ensures ParseSkillsResponse(Some(s)) == [] <==> Clean(s) == ""
  {
    var c := Clean(s);
    if c == "" {
      StagesOfEmpty();
    } else {
      CleanOfEmpty();
      StagesOfText(c);
    }
  }

  /** Trimming a prefix of a prefix keeps characters of the original only. */
  lemma TrimOfPrefixFrom(t: string, cut: string, dot: string, j: nat)
    requires |cut| <= |t| && cut == t[..|cut|] && |dot| <= |cut| && dot == cut[..|dot|]
    requires j < |Trim(dot)|
    ensures Trim(dot)[j] in t
  {
    var x := Trim(dot);
    assert x[j] in x;
    var a :| 0 <= a < |dot| && dot[a] == x[j];
    assert dot[a] == t[a];
  }

  /** A bullet item keeps characters of its segment only. */
  lemma BulletItemFrom(t: string, j: nat)
    requires j < |BulletItem(t)|
    ensures BulletItem(t)[j] in t
  {
    TrimOfPrefixFrom(t, CutColonTail(t), DropFinalDot(CutColonTail(t)), j);
  }

  /** One bullet item: trimmed, and free of markers when its segment was. */
  lemma BulletItemShape(part: string)
    requires forall j :: 0 <= j < |part| ==> !IsBullet(part[j])
    ensures var x := BulletItem(Trim(part));
      (|x| > 0 ==> !IsSpace(x[0]) && !IsSpace(x[|x| - 1])) && forall j :: 0 <= j < |x| ==> !IsBullet(x[j])
  {
    var t := Trim(part);
    var x := BulletItem(t);
    forall j | 0 <= j < |x| ensures !IsBullet(x[j]) {
      BulletItemFrom(t, j);
      var b :| 0 <= b < |part| && part[b] == x[j];
    }
  }

  lemma BulletItemsOfParts(parts: seq<string>, x: string)
    requires forall k :: 0 <= k < |parts| ==> forall j :: 0 <= j < |parts[k]| ==> !IsBullet(parts[k][j])
    requires x in Filter(Map(Filter(Map(parts, Trim), NonEmpty), BulletItem), NonEmpty)
    ensures |x| > 0 && !IsSpace(x[0]) && !IsSpace(x[|x| - 1]) && forall j :: 0 <= j < |x| ==> !IsBullet(x[j])
  {
    var trimmed := Map(parts, Trim);
    var kept := Filter(trimmed, NonEmpty);
    var items := Map(kept, BulletItem);
    assert x in items && NonEmpty(x);
    var i :| 0 <= i < |items| && items[i] == x;
    var k := FilterSource(trimmed, NonEmpty, i);
    assert x == BulletItem(Trim(parts[k]));
    BulletItemShape(parts[k]);
  }

  /** Every bullet-stage item is non-empty, trimmed and free of marker characters. */
  lemma BulletItemsShape(c: string)
    ensures forall x :: x in BulletItems(c) ==>
      |x| > 0 && !IsSpace(x[0]) && !IsSpace(x[|x| - 1]) && forall j :: 0 <= j < |x| ==> !IsBullet(x[j])
  {
    var parts := Split(c, IsBullet);
    forall x | x in BulletItems(c)
      ensures |x| > 0 && !IsSpace(x[0]) && !IsSpace(x[|x| - 1]) && forall j :: 0 <= j < |x| ==> !IsBullet(x[j])
    {
      BulletItemsOfParts(parts, x);
    }
  }

  /** Source order is kept: text on either side of a marker parses independently,
      and the items of the left part come first. */
  lemma {:induction false} BulletItemsAcrossMarker(a: string, m: char, b: string)
    requires IsBullet(m)
    ensures BulletItems(a + [m] + b) == BulletItems(a) + BulletItems(b)
  {
    SplitJoin(a, m, b, IsBullet);
    var pa, pb := Split(a, IsBullet), Split(b, IsBullet);
    MapConcat(pa, pb, Trim);
    FilterConcat(Map(pa, Trim), Map(pb, Trim), NonEmpty);
    MapConcat(Filter(Map(pa, Trim), NonEmpty), Filter(Map(pb, Trim), NonEmpty), BulletItem);
    FilterConcat(Map(Filter(Map(pa, Trim), NonEmpty), BulletItem), Map(Filter(Map(pb, Trim), NonEmpty), BulletItem), NonEmpty);
  }

  lemma SentenceItemShape(part: string)
    requires forall j :: 0 <= j < |part| ==> !IsSentenceBreak(part[j])
    ensures |LeadingPhrase(Trim(part))| <= |Trim(part)|
    ensures forall j :: 0 <= j < |LeadingPhrase(Trim(part))| ==> !IsSentenceBreak(LeadingPhrase(Trim(part))[j])
  {
    var t := Trim(part);
    var x := LeadingPhrase(t);
    forall j | 0 <= j < |x| ensures !IsSentenceBreak(x[j]) {
      assert x[j] in x;
      assert x[j] in t;
      assert x[j] in part;
    }
  }

  /** Every sentence-stage item is non-empty, shorter than 100 characters and holds
      neither a full stop nor a line break. */
  lemma SentenceItemsShape(c: string)
    ensures forall x :: x in SentenceItems(c) ==>
      0 < |x| < 100 && forall j :: 0 <= j < |x| ==> !IsSentenceBreak(x[j])
  {
    var parts := Split(c, IsSentenceBreak);
    var trimmed := Map(parts, Trim);
    var kept := Filter(trimmed, SentenceSized);
    var items := Map(kept, LeadingPhrase);
    assert SentenceItems(c) == Filter(items, NonEmpty);
    forall x | x in Filter(items, NonEmpty)
      ensures 0 < |x| < 100 && forall j :: 0 <= j < |x| ==> !IsSentenceBreak(x[j])
    {
      assert x in items && NonEmpty(x);
      var i :| 0 <= i < |items| && items[i] == x;
      var k := FilterSource(trimmed, SentenceSized, i);
      assert SentenceSized(kept[i]);
      assert x == LeadingPhrase(Trim(parts[k]));
      SentenceItemShape(parts[k]);
    }
  }

  lemma CutColonTailWithoutColon(s: string)
    requires forall j :: 0 <= j < |s| ==> s[j] != ':'
    ensures CutColonTail(s) == s
  {
  }

  lemma KeptSegmentsOfPlainWord(pad: string, w: string, tail: string)
    requires IsBlank(pad) && IsBlank(tail)
    requires w != [] && !IsSpace(w[0]) && !IsSpace(w[|w| - 1])
    requires forall j :: 0 <= j < |pad + w + tail| ==> !IsBullet((pad + w + tail)[j])
    ensures Filter(Map(Split(pad + w + tail, IsBullet), Trim), NonEmpty) == [w]
  {
    var seg := pad + w + tail;
    SplitNoSeparator(seg, IsBullet);
    TrimOfPadded(pad, w, tail);
    assert Map([seg], Trim) == [w];
    FilterSingleton(w, NonEmpty);
  }

  lemma BulletItemOfWord(w: string)
    requires w != [] && !IsSpace(w[0]) && !IsSpace(w[|w| - 1]) && w[|w| - 1] != '.'
    requires forall j :: 0 <= j < |w| ==> w[j] != ':'
    ensures BulletItem(w) == w
  {
    CutColonTailWithoutColon(w);
    TrimOfTrimmed(w);
  }

  lemma BulletItemOfPlainWord(w: string)
    requires w != [] && !IsSpace(w[0]) && !IsSpace(w[|w| - 1]) && w[|w| - 1] != '.'
    requires forall j :: 0 <= j < |w| ==> w[j] != ':'
    ensures Filter(Map([w], BulletItem), NonEmpty) == [w]
  {
    BulletItemOfWord(w);
    MapSingleton(w, BulletItem);
    FilterSingleton(w, NonEmpty);
  }

  /** A white-space-padded word with no marker, colon or final full stop is one item. */
  lemma BulletItemsOfPlainWord(pad: string, w: string, tail: string)
    requires IsBlank(pad) && IsBlank(tail)
    requires w != [] && !IsSpace(w[0]) && !IsSpace(w[|w| - 1]) && w[|w| - 1] != '.'
    requires forall j :: 0 <= j < |w| ==> w[j] != ':'
    requires forall j :: 0 <= j < |pad + w + tail| ==> !IsBullet((pad + w + tail)[j])
    ensures BulletItems(pad + w + tail) == [w]
  {
    KeptSegmentsOfPlainWord(pad, w, tail);
    BulletItemOfPlainWord(w);
  }

  lemma BulletItemsOfNothing()
    ensures BulletItems("") == []
  {
    assert Split("", IsBullet) == [""];
    assert Map([""], Trim) == [""];
    FilterSingleton("", NonEmpty);
    assert Map([], BulletItem) == [];
    assert Filter([], NonEmpty) == [];
  }

  const Example := "Missing Skills:\n- Python\n- SQL\n"

  lemma ExampleHeaderRemoved()
    ensures RemoveHeader(Example) == "\n- Python\n- SQL\n"
  {
    var s := Example;
    assert s[0..|Header|] == Header;
    assert StartsAtCI(s, 0, Header);
  }

  lemma ExampleTrimmed()
    ensures Trim("\n- Python\n- SQL\n") == "- Python\n- SQL"
  {
    var w := "- Python\n- SQL";
    assert w[0] == '-' && w[|w| - 1] == 'L';
    assert IsBlank("\n");
    TrimOfPadded("\n", w, "\n");
    ExampleBodyPadded();
  }

  lemma ExampleBodyPadded()
    ensures "\n" + "- Python\n- SQL" + "\n" == "\n- Python\n- SQL\n"
  {
  }

  lemma ExampleCleaned()
    ensures Clean(Example) == "- Python\n- SQL"
  {
    ExampleHeaderRemoved();
    CleanIsTrimmedWithoutHeader(Example);
    ExampleTrimmed();
  }

  predicate PlainWord(w: string) {
    && w != [] && !IsSpace(w[0]) && !IsSpace(w[|w| - 1]) && w[|w| - 1] != '.'
    && forall j :: 0 <= j < |w| ==> w[j] != ':' && !IsBullet(w[j])
  }

  /** The two-item dash list is a marker, a padded line, a marker and a padded word. */
  lemma DashListParts(a: string, b: string)
    ensures "- " + a + "\n- " + b == "" + ['-'] + ((" " + a + "\n") + ['-'] + (" " + b))
  {
    assert "- " == ['-'] + " ";
    assert "\n- " == "\n" + ['-'] + " ";
  }

  lemma TwoDashItemsSplit(a: string, b: string)
    ensures BulletItems("- " + a + "\n- " + b) == BulletItems(" " + a + "\n") + BulletItems(" " + b)
  {
    DashListParts(a, b);
    BulletItemsAcrossMarker("", '-', (" " + a + "\n") + ['-'] + (" " + b));
    BulletItemsAcrossMarker(" " + a + "\n", '-', " " + b);
    BulletItemsOfNothing();
  }

  lemma PaddedLine(a: string)
    requires PlainWord(a)
    ensures BulletItems(" " + a + "\n") == [a]
  {
    assert IsBlank(" ") && IsBlank("\n");
    BulletItemsOfPlainWord(" ", a, "\n");
  }

  lemma PaddedEnd(b: string)
    requires PlainWord(b)
    ensures BulletItems(" " + b) == [b]
  {
    assert " " + b == " " + b + "";
    BulletItemsOfPlainWord(" ", b, "");
  }

  /** A dash list of two plain words yields the two words, in order. */
  lemma TwoDashItems(a: string, b: string)
    requires PlainWord(a) && PlainWord(b)
    ensures BulletItems("- " + a + "\n- " + b) == [a, b]
  {
    TwoDashItemsSplit(a, b);
    PaddedLine(a);
    PaddedEnd(b);
  }

  lemma ExampleWords()
    ensures PlainWord("Python") && PlainWord("SQL")
    ensures "- " + "Python" + "\n- " + "SQL" == "- Python\n- SQL"
  {
  }

  lemma ExampleBullets()
    ensures HasBullet("- Python\n- SQL")
    ensures BulletItems("- Python\n- SQL") == ["Python", "SQL"]
  {
    ExampleWords();
    TwoDashItems("Python", "SQL");
    assert "- Python\n- SQL"[0] == '-';
  }

  /** The worked example: a header, a line break and two dash bullets. */
  lemma DashListExample()
    ensures ParseSkillsResponse(Some(Example)) == ["Python", "SQL"]
  {
    assert Example != "";
    ExampleCleaned();
    ExampleBullets();
    StageOrder("- Python\n- SQL");
  }
}
