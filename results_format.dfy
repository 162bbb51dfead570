/** The job and project formatters of the results page: the numbered answer text of
    the job-matching and project-generator services becomes a list of records, one
    per non-blank numbered chunk, with placeholders for missing fields and every
    long field cut to its cap. */
module ResultsFormat {
  import opened Text
  import opened Patterns

  datatype JobRecommendation = JobRecommendation(title: string, description: string, skills: string, careerPath: string)

  datatype ProjectIdea = ProjectIdea(title: string, description: string, skills: string, impact: string, difficulty: string)

  const DescriptionMissing := "Description not available"
  const SkillsMissing := "Skills information not available"
  const CareerPathMissing := "Career path information not available"
  const ImpactMissing := "Impact information not available"
  const DefaultDifficulty := "Intermediate"

  // ---- Jobs -------------------------------------------------------------

  /** `^\*\*([^*]+)\*\*`: two stars at the start, a non-empty run without stars, two stars. */
  function BoldTitle(section: string): (r: Option<string>)
    ensures r.Some? ==> |r.value| > 0 && '*' !in r.value
  {
    if StartsAt(section, 0, "**") then
      var k := IndexOf(section, 2, '*');
      if k > 2 && StartsAt(section, k, "**") then Some(section[2..k]) else None
    else None
  }

  /** `section.split("\n")[0]`. */
  function FirstLine(section: string): (r: string)
    ensures |r| <= |section| && r == section[..|r|] && '\n' !in r
    ensures |r| < |section| ==> section[|r|] == '\n'
  {
    section[..IndexOf(section, 0, '\n')]
  }

  /** The title before the fallback to a numbered name: the bold heading, or else the
      first line with every `**` removed, trimmed either way. */
  function JobTitleText(section: string): string {
    match BoldTitle(section)
    case Some(t) => Trim(t)
    case None => Trim(RemoveDoubleStars(FirstLine(section)))
  }

  /** One record; `index` is the chunk's 0-based place among the non-blank chunks. */
  function JobFromSection(section: string, index: nat): (r: JobRecommendation)
    ensures r.title != ""
    ensures JobTitleText(section) != "" ==> r.title == JobTitleText(section)
    ensures JobTitleText(section) == "" ==> r.title == "Job Recommendation " + NatToString(index + 1)
    ensures |r.description| <= 303 && |r.skills| <= 203 && |r.careerPath| <= 203
    ensures BoldField(section, "Description", 0).None? ==> r.description == DescriptionMissing
    ensures BoldField(section, "Key Required Skills", 0).None? ==> r.skills == SkillsMissing
    ensures BoldField(section, "Potential Career Path", 0).None? ==> r.careerPath == CareerPathMissing
    ensures BoldField(section, "Description", 0).Some? ==>
      r.description == Truncate(Trim(BoldField(section, "Description", 0).value), 300)
    ensures BoldField(section, "Key Required Skills", 0).Some? ==>
      r.skills == Truncate(Trim(BoldField(section, "Key Required Skills", 0).value), 200)
    ensures BoldField(section, "Potential Career Path", 0).Some? ==>
      r.careerPath == Truncate(Trim(BoldField(section, "Potential Career Path", 0).value), 200)
  {
    var t := JobTitleText(section);
    JobRecommendation(
      if t == "" then "Job Recommendation " + NatToString(index + 1) else t,
      Truncate(FieldOr(BoldField(section, "Description", 0), DescriptionMissing), 300),
      Truncate(FieldOr(BoldField(section, "Key Required Skills", 0), SkillsMissing), 200),
      Truncate(FieldOr(BoldField(section, "Potential Career Path", 0), CareerPathMissing), 200))
  }

  /** `formatJobRecommendations`; an absent answer is the empty string. */
  function FormatJobRecommendations(text: string): (r: seq<JobRecommendation>)
    ensures |r| == |Sections(text, "")|
    ensures forall i :: 0 <= i < |r| ==> r[i] == JobFromSection(Sections(text, "")[i], i)
  {
    var sections := Sections(text, "");
    seq(|sections|, i requires 0 <= i < |sections| => JobFromSection(sections[i], i))
  }

  /** No text, no records. */
  lemma NoJobsWithoutText()
    ensures FormatJobRecommendations("") == []
  {
    SectionsOfEmpty("");
  }

  /** A bold heading is the title, trimmed; what follows it does not matter. */
  lemma {:induction false} BoldHeadingIsTitle(t: string, rest: string)
    requires |t| > 0 && '*' !in t
    ensures JobTitleText("**" + t + "**" + rest) == Trim(t)
  {
    var s := "**" + t + "**" + rest;
    assert s[..2] == "**";
    assert forall k :: 2 <= k < 2 + |t| ==> s[k] == t[k - 2];
    IndexOfIs(s, 2, '*', 2 + |t|);
    assert s[2 + |t|..2 + |t| + 2] == "**";
    assert s[2..2 + |t|] == t;
  }

  // ---- Projects ---------------------------------------------------------

  /** The title before cleaning: the rest of the `Project Title:` line, or else the
      first line, or else a numbered name when the chunk starts with a line feed. */
  function ProjectTitleText(section: string, index: nat): string {
    match LabelLine(section, "Project Title:")
    case Some(v) => Trim(v)
    case None =>
      if |section| > 0 && section[0] != '\n' then Trim(FirstLine(section))
      else "Creative Project " + NatToString(index + 1)
  }

  /** `.replace(/Project Title:\s*\/i, "")`: the first occurrence in any ASCII case,
      with the white space after it, goes. */
  function RemoveTitleLabel(s: string): (r: string)
    ensures |r| <= |s|
    ensures (forall j :: 0 <= j < |s| ==> !StartsAtCI(s, j, "Project Title:")) ==> r == s
  {
    var p := (j: nat) => StartsAtCI(s, j, "Project Title:");
    var q := FirstFrom(|s|, 0, p);
    assert forall j :: 0 <= j < q ==> !StartsAtCI(s, j, "Project Title:") by {
      forall j: nat | j < q ensures !StartsAtCI(s, j, "Project Title:") { FirstFromBefore(|s|, 0, p, j); }
    }
    if q < |s| then s[..q] + s[SpaceEnd(s, q + 14)..] else s
  }

  /** With the label present, its first occurrence and the white space after it go. */
  lemma RemoveTitleLabelAt(s: string, q: nat)
    requires StartsAtCI(s, q, "Project Title:")
    requires forall j :: 0 <= j < q ==> !StartsAtCI(s, j, "Project Title:")
    ensures RemoveTitleLabel(s) == s[..q] + s[SpaceEnd(s, q + 14)..]
  {
    var p := (j: nat) => StartsAtCI(s, j, "Project Title:");
    FirstFromIs(|s|, 0, p, q);
  }

  /** `\s*Description:.*$` (case-insensitive, no `s` flag) matches at `q`: white space,
      the label, then nothing but characters `.` matches up to the end. */
  predicate DescriptionTailAt(s: string, q: nat) {
    q <= |s| && StartsAtCI(s, SpaceEnd(s, q), "Description:") && NoLineTerminator(s[SpaceEnd(s, q) + 12..])
  }

  /** `.replace(/\s*Description:.*$/i, "")`: from the leftmost match on, the text goes. */
  function CutDescriptionTail(s: string): (r: string)
    ensures |r| <= |s| && r == s[..|r|]
    ensures (forall j :: 0 <= j < |s| ==> !DescriptionTailAt(s, j)) <==> r == s
  {
    var q := FirstFrom(|s|, 0, (j: nat) => DescriptionTailAt(s, j));
    if q < |s| then s[..q]
    else
      assert forall j :: 0 <= j < |s| ==> !DescriptionTailAt(s, j) by {
        forall j: nat | j < |s| ensures !DescriptionTailAt(s, j) {
          FirstFromBefore(|s|, 0, (j: nat) => DescriptionTailAt(s, j), j);
        }
      }
      s
  }

  /** The tail goes from the leftmost position where `\s*Description:.*$` matches. */
  lemma CutDescriptionTailAt(s: string)
    ensures |CutDescriptionTail(s)| < |s| ==> DescriptionTailAt(s, |CutDescriptionTail(s)|)
    ensures forall j :: 0 <= j < |CutDescriptionTail(s)| ==> !DescriptionTailAt(s, j)
  {
    var p := (j: nat) => DescriptionTailAt(s, j);
    var q := FirstFrom(|s|, 0, p);
    forall j: nat | j < q ensures !DescriptionTailAt(s, j) { FirstFromBefore(|s|, 0, p, j); }
  }

  /** The cleaning chain of a project title: `**`, the label, a description tail, trim. */
  function CleanTitle(t: string): string {
    Trim(CutDescriptionTail(RemoveTitleLabel(RemoveDoubleStars(t))))
  }

  /** The difficulty: the trimmed text after `Difficulty Level:` to the end of the
      chunk, unless that is missing or longer than 20 characters. */
  function Difficulty(section: string): (r: string)
    ensures |r| <= 20
    ensures PlainField(section, "Difficulty Level:", None, false).None? ==> r == DefaultDifficulty
    ensures PlainField(section, "Difficulty Level:", None, false).Some? ==>
      var d := Trim(PlainField(section, "Difficulty Level:", None, false).value);
      r == if |d| > 20 then DefaultDifficulty else d
  {
    var d := FieldOr(PlainField(section, "Difficulty Level:", None, false), DefaultDifficulty);
    if |d| > 20 then DefaultDifficulty else d
  }

  function ProjectFromSection(section: string, index: nat): (r: ProjectIdea)
    ensures |r.title| <= 83 && |r.description| <= 253 && |r.skills| <= 153 && |r.impact| <= 153 && |r.difficulty| <= 20
    ensures r.title == Truncate(CleanTitle(ProjectTitleText(section, index)), 80)
    ensures PlainField(section, "Description:", Some("Key Skills Demonstrated:"), false).None? ==>
      r.description == DescriptionMissing
    ensures PlainField(section, "Key Skills Demonstrated:", Some("Potential Real-World Impact:"), false).None? ==>
      r.skills == SkillsMissing
    ensures PlainField(section, "Potential Real-World Impact:", Some("Difficulty Level:"), false).None? ==>
      r.impact == ImpactMissing
    ensures PlainField(section, "Description:", Some("Key Skills Demonstrated:"), false).Some? ==>
      r.description == Truncate(Trim(PlainField(section, "Description:", Some("Key Skills Demonstrated:"), false).value), 250)
    ensures PlainField(section, "Key Skills Demonstrated:", Some("Potential Real-World Impact:"), false).Some? ==>
      r.skills == Truncate(Trim(PlainField(section, "Key Skills Demonstrated:", Some("Potential Real-World Impact:"), false).value), 150)
    ensures PlainField(section, "Potential Real-World Impact:", Some("Difficulty Level:"), false).Some? ==>
      r.impact == Truncate(Trim(PlainField(section, "Potential Real-World Impact:", Some("Difficulty Level:"), false).value), 150)
    ensures r.difficulty == Difficulty(section)
  {
    ProjectIdea(
      Truncate(CleanTitle(ProjectTitleText(section, index)), 80),
      Truncate(FieldOr(PlainField(section, "Description:", Some("Key Skills Demonstrated:"), false), DescriptionMissing), 250),
      Truncate(FieldOr(PlainField(section, "Key Skills Demonstrated:", Some("Potential Real-World Impact:"), false), SkillsMissing), 150),
      Truncate(FieldOr(PlainField(section, "Potential Real-World Impact:", Some("Difficulty Level:"), false), ImpactMissing), 150),
      Difficulty(section))
  }

  /** `formatProjectIdeas`; an absent answer is the empty string. */
  function FormatProjectIdeas(text: string): (r: seq<ProjectIdea>)
    ensures |r| == |Sections(text, "")|
    ensures forall i :: 0 <= i < |r| ==> r[i] == ProjectFromSection(Sections(text, "")[i], i)
  {
    var sections := Sections(text, "");
    seq(|sections|, i requires 0 <= i < |sections| => ProjectFromSection(sections[i], i))
  }

  lemma NoProjectsWithoutText()
    ensures FormatProjectIdeas("") == []
  {
    SectionsOfEmpty("");
  }
}
