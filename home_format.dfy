/** The formatters of the home page. They split the answer text the same way
    the results page does but read the fields with other patterns: the job title is
    the text before the first star, a missing field is the empty string, and no
    field is cut to a cap. The project splitter swallows the `Project Title:` label
    together with the number, so the title pattern no longer finds its label. */
module HomeFormat {
  import opened Text
  import opened Patterns
  import ResultsFormat

  type JobRecommendation = ResultsFormat.JobRecommendation
  type ProjectIdea = ResultsFormat.ProjectIdea

  const TitleLabel := "Project Title:"

  // ---- Jobs -------------------------------------------------------------

  /** `^([^*]+)`: the non-empty run before the first star. */
  function LeadingNonStars(section: string): (r: Option<string>)
    ensures r.None? <==> (section == [] || section[0] == '*')
    ensures r.Some? ==> 0 < |r.value| <= |section| && r.value == section[..|r.value|] && '*' !in r.value
    ensures r.Some? && |r.value| < |section| ==> section[|r.value|] == '*'
  {
    var k := IndexOf(section, 0, '*');
    if k > 0 then
      assert forall j :: 0 <= j < k ==> section[..k][j] != '*';
      Some(section[..k])
    else None
  }

  /** One record: the title is the trimmed run before the first star, or `Job Title`
      when the chunk starts with a star; the fields need a star, white space, then
      the bold label, and are trimmed but never cut. */
  function JobFromSection(section: string): (r: JobRecommendation)
    ensures LeadingNonStars(section).None? ==> r.title == "Job Title"
    ensures LeadingNonStars(section).Some? ==> r.title == Trim(LeadingNonStars(section).value) && '*' !in r.title
    ensures BoldField(section, "Description", 1).None? ==> r.description == ""
    ensures BoldField(section, "Key Required Skills", 1).None? ==> r.skills == ""
    ensures BoldField(section, "Potential Career Path", 1).None? ==> r.careerPath == ""
    ensures BoldField(section, "Description", 1).Some? ==> r.description == Trim(BoldField(section, "Description", 1).value)
    ensures BoldField(section, "Key Required Skills", 1).Some? ==>
      r.skills == Trim(BoldField(section, "Key Required Skills", 1).value)
    ensures BoldField(section, "Potential Career Path", 1).Some? ==>
      r.careerPath == Trim(BoldField(section, "Potential Career Path", 1).value)
  {
    ResultsFormat.JobRecommendation(
      match LeadingNonStars(section) case Some(t) => Trim(t) case None => "Job Title",
      FieldOr(BoldField(section, "Description", 1), ""),
      FieldOr(BoldField(section, "Key Required Skills", 1), ""),
      FieldOr(BoldField(section, "Potential Career Path", 1), ""))
  }

  /** `formatJobRecommendations` of the home page; an empty answer has no records. */
  function FormatJobRecommendations(text: string): (r: seq<JobRecommendation>)
    ensures |r| == |Sections(text, "")|
    ensures forall i :: 0 <= i < |r| ==> r[i] == JobFromSection(Sections(text, "")[i])
  {
    var sections := Sections(text, "");
    seq(|sections|, i requires 0 <= i < |sections| => JobFromSection(sections[i]))
  }

  lemma NoJobsWithoutText()
    ensures FormatJobRecommendations("") == []
  {
    SectionsOfEmpty("");
  }

  /** The title is everything before the first star, trimmed. */
  lemma TitleBeforeStar(t: string, rest: string)
    requires |t| > 0 && '*' !in t
    ensures JobFromSection(t + "*" + rest).title == Trim(t)
  {
    var s := t + "*" + rest;
    assert forall k :: 0 <= k < |t| ==> s[k] == t[k];
    IndexOfIs(s, 0, '*', |t|);
    assert s[..|t|] == t;
  }

  /** A bold heading is lost on the home page but kept on the results page. */
  lemma BoldHeadingOnBothPages(t: string, rest: string)
    requires |t| > 0 && '*' !in t
    ensures JobFromSection("**" + t + "**" + rest).title == "Job Title"
    ensures ResultsFormat.JobTitleText("**" + t + "**" + rest) == Trim(t)
  {
    ResultsFormat.BoldHeadingIsTitle(t, rest);
  }

  // ---- Projects ---------------------------------------------------------

  /** One record as the code is written: every field is a spaced plain label, a
      missing one is the empty string, and the difficulty defaults to
      `Intermediate`. */
  function ProjectFromSection(chunk: string): (r: ProjectIdea)
    ensures PlainField(chunk, TitleLabel, Some("Description:"), true).None? ==> r.title == "Project"
    ensures PlainField(chunk, TitleLabel, Some("Description:"), true).Some? ==>
      r.title == Trim(PlainField(chunk, TitleLabel, Some("Description:"), true).value)
    ensures PlainField(chunk, "Description:", Some("Key Skills Demonstrated:"), true).None? ==> r.description == ""
    ensures PlainField(chunk, "Key Skills Demonstrated:", Some("Potential Real-World Impact:"), true).None? ==> r.skills == ""
    ensures PlainField(chunk, "Potential Real-World Impact:", Some("Difficulty Level:"), true).None? ==> r.impact == ""
    ensures PlainField(chunk, "Description:", Some("Key Skills Demonstrated:"), true).Some? ==>
      r.description == Trim(PlainField(chunk, "Description:", Some("Key Skills Demonstrated:"), true).value)
    ensures PlainField(chunk, "Key Skills Demonstrated:", Some("Potential Real-World Impact:"), true).Some? ==>
      r.skills == Trim(PlainField(chunk, "Key Skills Demonstrated:", Some("Potential Real-World Impact:"), true).value)
    ensures PlainField(chunk, "Potential Real-World Impact:", Some("Difficulty Level:"), true).Some? ==>
      r.impact == Trim(PlainField(chunk, "Potential Real-World Impact:", Some("Difficulty Level:"), true).value)
    ensures PlainField(chunk, "Difficulty Level:", None, true).None? ==> r.difficulty == ResultsFormat.DefaultDifficulty
    ensures PlainField(chunk, "Difficulty Level:", None, true).Some? ==>
      r.difficulty == Trim(PlainField(chunk, "Difficulty Level:", None, true).value)
  {
    ResultsFormat.ProjectIdea(
      FieldOr(PlainField(chunk, TitleLabel, Some("Description:"), true), "Project"),
      FieldOr(PlainField(chunk, "Description:", Some("Key Skills Demonstrated:"), true), ""),
      FieldOr(PlainField(chunk, "Key Skills Demonstrated:", Some("Potential Real-World Impact:"), true), ""),
      FieldOr(PlainField(chunk, "Potential Real-World Impact:", Some("Difficulty Level:"), true), ""),
      FieldOr(PlainField(chunk, "Difficulty Level:", None, true), ResultsFormat.DefaultDifficulty))
  }

  /** `formatProjectIdeas` of the home page: chunks between `<digits>. Project Title:`. */
  function FormatProjectIdeas(text: string): (r: seq<ProjectIdea>)
    ensures |r| == |Sections(text, TitleLabel)|
    ensures forall i :: 0 <= i < |r| ==> r[i] == ProjectFromSection(Sections(text, TitleLabel)[i])
  {
    var sections := Sections(text, TitleLabel);
    seq(|sections|, i requires 0 <= i < |sections| => ProjectFromSection(sections[i]))
  }

  lemma NoProjectsWithoutText()
    ensures FormatProjectIdeas("") == []
  {
    SectionsOfEmpty(TitleLabel);
  }

  /** A chunk without the label gets the placeholder title. */
  lemma TitleWithoutLabel(chunk: string)
    requires forall q :: 0 <= q < |chunk| ==> !StartsAt(chunk, q, TitleLabel)
    ensures ProjectFromSection(chunk).title == "Project"
  {
    assert forall q :: 0 <= q < |chunk| ==> PlainLabelEnd(chunk, q, TitleLabel).None?;
  }

  /** A text that numbers one project and has no digit after the number is one
      empty chunk and the rest of the text, the label gone with the number. */
  lemma {:induction false} OneNumberedProject(rest: string)
    requires forall j :: 0 <= j < |rest| ==> !IsDigit(rest[j])
    ensures SplitNumbered("1. " + TitleLabel + rest, TitleLabel) == ["", rest]
  {
    var s := "1. " + TitleLabel + rest;
    var e := 3 + |TitleLabel|;
    assert s[..e] == "1. " + TitleLabel && s[e..] == rest;
    assert DigitEnd(s, 0) == 1 by {
      assert IsDigit(s[0]) && !IsDigit(s[1]);
    }
    assert SpaceEnd(s, 2) == 3 by {
      assert IsSpace(s[2]) && !IsSpace(s[3]);
    }
    assert s[3..e] == TitleLabel;
    assert NumberedAt(s, 0, TitleLabel) == Some(e);
    forall j | e <= j < |s| ensures NumberedAt(s, j, TitleLabel).None? {
      assert s[j] == rest[j - e];
    }
    SplitFromNext(s, TitleLabel, 0, 0);
    SplitFromLast(s, TitleLabel, e);
  }

  /** The worked example: one numbered project with a title and a description. */
  const ExampleChunk := " Chat\nDescription: An app"
  const ExampleText := "1. " + TitleLabel + ExampleChunk

  lemma ExampleSplit()
    ensures SplitNumbered(ExampleText, TitleLabel) == ["", ExampleChunk]
  {
    assert forall j :: 0 <= j < |ExampleChunk| ==> !IsDigit(ExampleChunk[j]);
    OneNumberedProject(ExampleChunk);
  }

  /** An empty first chunk is dropped and a non-blank second one kept. */
  lemma {:induction false} SectionsOfEmptyThen(x: string)
    requires HasText(x)
    ensures Filter(["", x], HasText) == [x]
  {
    assert ["", x] == [""] + [x];
    FilterConcat([""], [x], HasText);
    assert !HasText("") by { TrimEmptyIffBlank(""); }
    FilterSingleton("", HasText);
    FilterSingleton(x, HasText);
  }

  /** A string with a character that is not white space has text. */
  lemma {:induction false} HasTextAt(s: string, i: nat)
    requires i < |s| && !IsSpace(s[i])
    ensures HasText(s)
  {
    TrimEmptyIffBlank(s);
  }

  lemma ExampleChunkHasText()
    ensures HasText(ExampleChunk)
  {
    var c := ExampleChunk;
    assert c[1] == 'C';
    HasTextAt(c, 1);
  }

  lemma ExampleSections()
    ensures Sections(ExampleText, TitleLabel) == [ExampleChunk]
  {
    ExampleSplit();
    ExampleChunkHasText();
    SectionsOfEmptyThen(ExampleChunk);
  }

  lemma ExampleChunkUnlabelled()
    ensures forall q :: 0 <= q < |ExampleChunk| ==> !StartsAt(ExampleChunk, q, TitleLabel)
  {
    forall q | 0 <= q < |ExampleChunk| ensures !StartsAt(ExampleChunk, q, TitleLabel) {
      assert ExampleChunk[q] != 'P';
    }
  }

  /** The label the title pattern looks for went with the split: a well-formed
      answer gets the placeholder title. */
  lemma TitleLostBySplit()
    ensures |FormatProjectIdeas(ExampleText)| == 1
    ensures FormatProjectIdeas(ExampleText)[0].title == "Project"
  {
    ExampleSections();
    ExampleChunkUnlabelled();
    TitleWithoutLabel(ExampleChunk);
  }

  // ---- The title read from the chunk start --------------------------------

  /** The title as the split leaves it: the chunk itself begins where the label
      ended, so the title runs from the chunk start to `\s*Description:` or the end. */
  function LeadingTitle(chunk: string): (r: string)
    ensures |r| <= |chunk|
  {
    Trim(chunk[..FirstFrom(|chunk|, 0, (t: nat) => StopAt(chunk, t, Some("Description:"), true))])
  }

  /** The record with the title read from the chunk start; every other field as written. */
  function ProjectFromSectionFixed(chunk: string): (r: ProjectIdea)
    ensures r.title == LeadingTitle(chunk)
    ensures r.(title := "") == ProjectFromSection(chunk).(title := "")
  {
    ProjectFromSection(chunk).(title := LeadingTitle(chunk))
  }

  function FormatProjectIdeasFixed(text: string): (r: seq<ProjectIdea>)
    ensures |r| == |Sections(text, TitleLabel)|
    ensures forall i :: 0 <= i < |r| ==> r[i] == ProjectFromSectionFixed(Sections(text, TitleLabel)[i])
  {
    var sections := Sections(text, TitleLabel);
    seq(|sections|, i requires 0 <= i < |sections| => ProjectFromSectionFixed(sections[i]))
  }

  /** The title after the label comes back: a title without white space at its ends
      and without `Description:` in it, on its own line before the description. */
  lemma {:induction false} LeadingTitleOfLabelledLine(t: string, d: string)
    requires |t| > 0 && !IsSpace(t[0]) && !IsSpace(t[|t| - 1]) && !Contains(t, "Description:")
    ensures LeadingTitle(" " + t + "\nDescription:" + d) == t
  {
    var c := " " + t + "\nDescription:" + d;
    var stop := (k: nat) => StopAt(c, k, Some("Description:"), true);
    assert c[|t| + 2..|t| + 14] == "Description:";
    assert SpaceEnd(c, |t| + 1) == |t| + 2 by {
      assert IsSpace(c[|t| + 1]) && !IsSpace(c[|t| + 2]);
    }
    assert stop(|t| + 1);
    forall k | 0 <= k < |t| + 1 ensures !stop(k) {
      NoStopInTitle(t, d, k);
    }
    FirstFromIs(|c|, 0, stop, |t| + 1);
    assert c[..|t| + 1] == " " + t;
    TrimOfPadded(" ", t, "");
    assert " " + t + "" == " " + t;
  }

  /** Before the line break, the lookahead for the description never holds. */
  lemma NoStopInTitle(t: string, d: string, k: nat)
    requires |t| > 0 && !IsSpace(t[|t| - 1]) && !Contains(t, "Description:") && k < |t| + 1
    ensures !StopAt(" " + t + "\nDescription:" + d, k, Some("Description:"), true)
  {
    var c := " " + t + "\nDescription:" + d;
    var u := SpaceEnd(c, k);
    assert c[|t|] == t[|t| - 1];
    assert IsSpace(c[0]);
    assert 1 <= u <= |t|;
    if u + 12 <= |t| + 1 {
      assert !StartsAt(t, u - 1, "Description:");
      assert t[u - 1..u + 11] == c[u..u + 12];
    } else if u + 12 <= |c| {
      assert c[|t| + 1] == '\n';
      assert c[u..u + 12][|t| + 1 - u] == c[|t| + 1];
      assert "Description:"[|t| + 1 - u] != '\n';
    }
  }

  lemma ExampleChunkParts()
    ensures ExampleChunk == " " + "Chat" + "\nDescription:" + " An app"
  {
  }

  lemma ExampleLeadingTitle()
    ensures LeadingTitle(ExampleChunk) == "Chat"
  {
    ExampleChunkParts();
    LeadingTitleOfLabelledLine("Chat", " An app");
  }

  /** The worked example keeps its title once it is read from the chunk start. */
  lemma TitleKeptFromChunkStart()
    ensures |FormatProjectIdeasFixed(ExampleText)| == 1
    ensures FormatProjectIdeasFixed(ExampleText)[0].title == "Chat"
  {
    ExampleSections();
    ExampleLeadingTitle();
  }
}
