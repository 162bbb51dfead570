/** The state of the results page: five sections, each with a loading flag and an
    optional error, the data each request delivers, and the requests the page has
    started. Each request's completion is an event that updates this state; the
    requests themselves run outside the model. */
module ResultsPage {
  import opened Text
  import SkillsParser
  import ResultsFormat
  import Api
  import Backend

  datatype Section = Skills | Courses | Videos | Jobs | Projects

  datatype TabStatus = Loading | Error | Completed

  /** The requests the page starts. */
  datatype Call = AnalyzeResume | FetchCourses | FetchVideos | FetchJobMatching | FetchProjects

  const ResumeFailed := "Failed to analyze resume"
  const VideosFailed := "Failed to load videos"
  const JobsFailed := "Failed to load job recommendations"
  const ProjectsFailed := "Failed to load project ideas"

  /** One request coming back: whether it succeeded, and what the handler reads. */
  datatype Reply =
    | ResumeReply(ok: bool, missingSkillsField: Option<string>, extracted: Option<string>)
    | CoursesReply(ok: bool, fetched: seq<Api.Course>, skills: seq<string>, jobTitle: string)
    | VideosReply(ok: bool, videos: Option<seq<Backend.Video>>)
    | JobsReply(ok: bool, text: Option<string>)
    | ProjectsReply(ok: bool, text: Option<string>)

  /** The section whose loading flag a reply clears. */
  function SectionOf(a: Reply): Section {
    match a
    case ResumeReply(_, _, _) => Skills
    case CoursesReply(_, _, _, _) => Courses
    case VideosReply(_, _) => Videos
    case JobsReply(_, _) => Jobs
    case ProjectsReply(_, _) => Projects
  }

  /** No reply in `replies` is for section `s`. */
  predicate Unanswered(replies: seq<Reply>, s: Section) {
    forall k :: 0 <= k < |replies| ==> SectionOf(replies[k]) != s
  }

  /** Every field of the page at one moment. */
  datatype State = State(
    analysisData: Option<string>, missingSkills: seq<string>, courses: seq<Api.Course>,
    videos: seq<Backend.Video>, jobRecommendations: Option<string>, projectIdeas: Option<string>,
    extractedText: string, loading: map<Section, bool>, errors: map<Section, Option<string>>,
    started: seq<Call>)

  /** What the handler of one reply makes of the page. */
  function Handle(st: State, a: Reply): State {
    match a
    case ResumeReply(ok, field, extracted) =>
      if ok then st.(missingSkills := SkillsParser.ParseSkillsResponse(field), extractedText := GetOr(extracted, ""),
        loading := st.loading[Skills := false], started := st.started + [FetchJobMatching, FetchProjects])
      else st.(loading := st.loading[Skills := false], errors := st.errors[Skills := Some(ResumeFailed)])
    case CoursesReply(ok, fetched, skills, jobTitle) =>
      st.(courses := if ok && |fetched| > 0 then fetched else Api.FallbackCourses(skills, jobTitle),
        loading := st.loading[Courses := false])
    case VideosReply(ok, videos) =>
      if ok then st.(videos := GetOr(videos, []), loading := st.loading[Videos := false])
      else st.(loading := st.loading[Videos := false], errors := st.errors[Videos := Some(VideosFailed)])
    case JobsReply(ok, text) =>
      if ok then st.(jobRecommendations := text, loading := st.loading[Jobs := false])
      else st.(loading := st.loading[Jobs := false], errors := st.errors[Jobs := Some(JobsFailed)])
    case ProjectsReply(ok, text) =>
      if ok then st.(projectIdeas := text, loading := st.loading[Projects := false])
      else st.(loading := st.loading[Projects := false], errors := st.errors[Projects := Some(ProjectsFailed)])
  }

  /** A reply clears the loading flag of its own section and of no other. */
  lemma HandleLoading(st: State, a: Reply)
    ensures Handle(st, a).loading == st.loading[SectionOf(a) := false]
  {
  }

  /** A reply only touches its own section's error: a failure other than the courses'
      sets a message for it, while a success or a course failure sets none. Only a
      resume success starts further requests, and the stored analysis is kept. */
  lemma HandleTouchesOwnSection(st: State, a: Reply)
    ensures Handle(st, a).analysisData == st.analysisData
    ensures a.ok || a.CoursesReply? ==> Handle(st, a).errors == st.errors
    ensures !a.ok && !a.CoursesReply? ==>
      var e := Handle(st, a).errors;
      SectionOf(a) in e && e[SectionOf(a)].Some? && e[SectionOf(a)].value != "" &&
      e == st.errors[SectionOf(a) := e[SectionOf(a)]]
    ensures Handle(st, a).started == st.started + if a.ResumeReply? && a.ok then [FetchJobMatching, FetchProjects] else []
  {
  }

  /** The page after a sequence of replies, handled one after another. */
  function HandleAll(st: State, replies: seq<Reply>): State
    decreases |replies|
  {
    if replies == [] then st else Handle(HandleAll(st, replies[..|replies| - 1]), replies[|replies| - 1])
  }

  /** After a sequence of replies, a section is loading exactly when it was and none of
      the replies is for it. */
  lemma {:induction false} HandleAllLoading(st: State, replies: seq<Reply>)
    requires forall s: Section :: s in st.loading
    ensures forall s: Section :: s in HandleAll(st, replies).loading
    ensures forall s: Section :: HandleAll(st, replies).loading[s] <==> st.loading[s] && Unanswered(replies, s)
    decreases |replies|
  {
    if replies != [] {
      var init := replies[..|replies| - 1];
      var a := replies[|replies| - 1];
      HandleAllLoading(st, init);
      HandleLoading(HandleAll(st, init), a);
      forall s: Section ensures Unanswered(replies, s) <==> Unanswered(init, s) && SectionOf(a) != s {
        assert forall k :: 0 <= k < |init| ==> replies[k] == init[k];
      }
    }
  }

  class Page {
    /** The job title of the stored analysis, once it has been read. */
    var analysisData: Option<string>
    var missingSkills: seq<string>
    var courses: seq<Api.Course>
    var videos: seq<Backend.Video>
    /** `None` is a reply without the field. */
    var jobRecommendations: Option<string>
    var projectIdeas: Option<string>
    var extractedText: string
    /** `loadingStates`. */
    var loading: map<Section, bool>
    /** `errors`: a section that was never set has no key; a retried one maps to `None`. */
    var errors: map<Section, Option<string>>
    var started: seq<Call>

    predicate Valid()
      reads this
    {
      forall s: Section :: s in loading
    }

    function View(): State
      reads this
    {
      State(analysisData, missingSkills, courses, videos, jobRecommendations, projectIdeas,
        extractedText, loading, errors, started)
    }

    /** An error message is set for the section (`errors[tab]` is truthy). */
    predicate HasError(s: Section)
      reads this
    {
      s in errors && errors[s].Some? && errors[s].value != ""
    }

    constructor()
      ensures Valid()
      ensures forall s: Section :: loading[s]
      ensures View() == State(None, [], [], [], Some(""), Some(""), "",
        map[Skills := true, Courses := true, Videos := true, Jobs := true, Projects := true], map[], [])
    {
      analysisData, missingSkills, courses, videos := None, [], [], [];
      jobRecommendations, projectIdeas, extractedText := Some(""), Some(""), "";
      loading := map[Skills := true, Courses := true, Videos := true, Jobs := true, Projects := true];
      errors, started := map[], [];
      new;
      forall s: Section ensures s in loading {
        match s
        case Skills => assert Skills in loading;
        case Courses => assert Courses in loading;
        case Videos => assert Videos in loading;
        case Jobs => assert Jobs in loading;
        case Projects => assert Projects in loading;
      }
    }

    /** `getTabStatus`. */
    function TabStatus(s: Section): (r: TabStatus)
      requires Valid()
      reads this
      ensures r == Loading <==> loading[s]
      ensures r == Error <==> !loading[s] && HasError(s)
      ensures r == Completed <==> !loading[s] && !HasError(s)
    {
      if loading[s] then Loading else if HasError(s) then Error else Completed
    }

    /** `performAnalysis`: the resume, course and video requests start together. */
    method PerformAnalysis()
      modifies this
      ensures View() == old(View()).(started := old(started) + [AnalyzeResume, FetchCourses, FetchVideos])
    {
      started := started + [AnalyzeResume, FetchCourses, FetchVideos];
    }

    /** The mount effect with an analysis in storage. */
    method Load(jobTitle: string)
      modifies this
      ensures View() == old(View()).(analysisData := Some(jobTitle),
        started := old(started) + [AnalyzeResume, FetchCourses, FetchVideos])
    {
      analysisData := Some(jobTitle);
      PerformAnalysis();
    }

    /** `analyzeResume` succeeded: the skills are parsed and the two dependent requests start. */
    method ResumeOk(missingSkillsField: Option<string>, extracted: Option<string>)
      requires Valid()
      modifies this
      ensures Valid()
      ensures View() == old(View()).(
        missingSkills := SkillsParser.ParseSkillsResponse(missingSkillsField),
        extractedText := GetOr(extracted, ""),
        loading := old(loading)[Skills := false],
        started := old(started) + [FetchJobMatching, FetchProjects])
    {
      var parsed := SkillsParser.ParseSkills(missingSkillsField);
      ShowSkills(parsed, GetOr(extracted, ""));
    }

    /** The state updates of a successful analysis, for the parsed list. */
    method ShowSkills(parsed: seq<string>, text: string)
      requires Valid()
      modifies this
      ensures Valid()
      ensures View() == old(View()).(missingSkills := parsed, extractedText := text,
        loading := old(loading)[Skills := false], started := old(started) + [FetchJobMatching, FetchProjects])
    {
      missingSkills, extractedText, loading, started :=
        parsed, text, loading[Skills := false], started + [FetchJobMatching, FetchProjects];
    }

    /** `analyzeResume` failed: an error for the skills, and nothing else starts. */
    method ResumeFail()
      requires Valid()
      modifies this
      ensures Valid()
      ensures View() == old(View()).(loading := old(loading)[Skills := false],
        errors := old(errors)[Skills := Some(ResumeFailed)])
    {
      errors := errors[Skills := Some(ResumeFailed)];
      loading := loading[Skills := false];
    }

    /** `fetchCourses` got an answer: its courses, or the generated list when it has
        none. `skills` is what the handler reads as the missing skills. */
    method CoursesOk(fetched: seq<Api.Course>, skills: seq<string>, jobTitle: string)
      requires Valid()
      modifies this
      ensures Valid()
      ensures View() == old(View()).(
        courses := if |fetched| > 0 then fetched else Api.FallbackCourses(skills, jobTitle),
        loading := old(loading)[Courses := false])
    {
      if |fetched| > 0 {
        courses := fetched;
      } else {
        courses := Api.GenerateEnhancedFallbackCourses(skills, jobTitle);
      }
      loading := loading[Courses := false];
    }

    /** `fetchCourses` failed: the generated list, and no error. */
    method CoursesFail(skills: seq<string>, jobTitle: string)
      requires Valid()
      modifies this
      ensures Valid()
      ensures View() == old(View()).(courses := Api.FallbackCourses(skills, jobTitle),
        loading := old(loading)[Courses := false])
    {
      courses := Api.GenerateEnhancedFallbackCourses(skills, jobTitle);
      loading := loading[Courses := false];
    }

    /** `fetchVideos` got an answer; a reply without `videos` leaves the list empty. */
    method VideosOk(fetched: Option<seq<Backend.Video>>)
      requires Valid()
      modifies this
      ensures Valid()
      ensures View() == old(View()).(videos := if fetched.Some? then fetched.value else [],
        loading := old(loading)[Videos := false])
    {
      videos := if fetched.Some? then fetched.value else [];
      loading := loading[Videos := false];
    }

    method VideosFail()
      requires Valid()
      modifies this
      ensures Valid()
      ensures View() == old(View()).(loading := old(loading)[Videos := false],
        errors := old(errors)[Videos := Some(VideosFailed)])
    {
      errors := errors[Videos := Some(VideosFailed)];
      loading := loading[Videos := false];
    }

    method JobsOk(text: Option<string>)
      requires Valid()
      modifies this
      ensures Valid()
      ensures View() == old(View()).(jobRecommendations := text, loading := old(loading)[Jobs := false])
    {
      jobRecommendations := text;
      loading := loading[Jobs := false];
    }

    method JobsFail()
      requires Valid()
      modifies this
      ensures Valid()
      ensures View() == old(View()).(loading := old(loading)[Jobs := false],
        errors := old(errors)[Jobs := Some(JobsFailed)])
    {
      errors := errors[Jobs := Some(JobsFailed)];
      loading := loading[Jobs := false];
    }

    method ProjectsOk(text: Option<string>)
      requires Valid()
      modifies this
      ensures Valid()
      ensures View() == old(View()).(projectIdeas := text, loading := old(loading)[Projects := false])
    {
      projectIdeas := text;
      loading := loading[Projects := false];
    }

    method ProjectsFail()
      requires Valid()
      modifies this
      ensures Valid()
      ensures View() == old(View()).(loading := old(loading)[Projects := false],
        errors := old(errors)[Projects := Some(ProjectsFailed)])
    {
      errors := errors[Projects := Some(ProjectsFailed)];
      loading := loading[Projects := false];
    }

    /** `retrySection`: that one section loads again with its error cleared, and the
        whole analysis runs again when there is one. */
    method RetrySection(s: Section)
      requires Valid()
      modifies this
      ensures Valid()
      ensures View() == old(View()).(loading := old(loading)[s := true], errors := old(errors)[s := None],
        started := old(started) + if old(analysisData).Some? then [AnalyzeResume, FetchCourses, FetchVideos] else [])
    {
      loading := loading[s := true];
      errors := errors[s := None];
      if analysisData.Some? {
        PerformAnalysis();
      }
    }

    /** The handler a reply runs: the page becomes `Handle` of what it was. */
    method Answer(a: Reply)
      requires Valid()
      modifies this
      ensures Valid()
      ensures View() == Handle(old(View()), a)
      ensures loading == old(loading)[SectionOf(a) := false]
    {
      match a
      case ResumeReply(ok, field, extracted) =>
        if ok { ResumeOk(field, extracted); } else { ResumeFail(); }
      case CoursesReply(ok, fetched, skills, jobTitle) =>
        if ok { CoursesOk(fetched, skills, jobTitle); } else { CoursesFail(skills, jobTitle); }
      case VideosReply(ok, videos) =>
        if ok { VideosOk(videos); } else { VideosFail(); }
      case JobsReply(ok, text) =>
        if ok { JobsOk(text); } else { JobsFail(); }
      case ProjectsReply(ok, text) =>
        if ok { ProjectsOk(text); } else { ProjectsFail(); }
    }

    /** `formattedJobs`: an absent or empty answer has no records. */
    function FormattedJobs(): (r: seq<ResultsFormat.JobRecommendation>)
      reads this
      ensures jobRecommendations.None? ==> r == []
      ensures jobRecommendations.Some? ==> r == ResultsFormat.FormatJobRecommendations(jobRecommendations.value)
    {
      ResultsFormat.NoJobsWithoutText();
      if jobRecommendations.Some? && jobRecommendations.value != "" then
        ResultsFormat.FormatJobRecommendations(jobRecommendations.value)
      else []
    }

    /** `formattedProjects`. */
    function FormattedProjects(): (r: seq<ResultsFormat.ProjectIdea>)
      reads this
      ensures projectIdeas.None? ==> r == []
      ensures projectIdeas.Some? ==> r == ResultsFormat.FormatProjectIdeas(projectIdeas.value)
    {
      ResultsFormat.NoProjectsWithoutText();
      if projectIdeas.Some? && projectIdeas.value != "" then ResultsFormat.FormatProjectIdeas(projectIdeas.value)
      else []
    }
  }

  // ---- Runs of the page -------------------------------------------------------

  /** A failed resume analysis shows an error for the skills, while the job and
      project sections, whose requests never start, keep loading. */
  method ResumeFailureRun(jobTitle: string) returns (p: Page)
    ensures p.Valid()
    ensures p.TabStatus(Skills) == Error
    ensures p.TabStatus(Jobs) == Loading && p.TabStatus(Projects) == Loading
    ensures FetchJobMatching !in p.started && FetchProjects !in p.started
  {
    p := new Page();
    p.Load(jobTitle);
    p.ResumeFail();
  }

  /** A failed course request still completes the courses section, with the
      generated list. */
  method CourseFailureRun(jobTitle: string, skills: seq<string>) returns (p: Page)
    ensures p.Valid()
    ensures p.TabStatus(Courses) == Completed
    ensures p.courses == Api.FallbackCourses(skills, jobTitle) && |p.courses| <= Api.MaxCourses
  {
    p := new Page();
    p.Load(jobTitle);
    p.CoursesFail(skills, jobTitle);
    Api.FallbackCoursesInvariants(skills, jobTitle);
  }

  /** Retrying a failed section makes it load again and starts the analysis over. */
  method RetryRun(jobTitle: string) returns (p: Page)
    ensures p.Valid()
    ensures p.TabStatus(Skills) == Loading && !p.HasError(Skills)
    ensures p.started == [AnalyzeResume, FetchCourses, FetchVideos, AnalyzeResume, FetchCourses, FetchVideos]
  {
    p := new Page();
    p.Load(jobTitle);
    p.ResumeFail();
    p.RetrySection(Skills);
  }

  /** Replies arriving in any order, each success or failure: a section stops loading
      exactly when it has had a reply, and the others keep their flags. */
  method Replay(p: Page, replies: seq<Reply>)
    requires p.Valid()
    modifies p
    ensures p.Valid()
    ensures p.View() == HandleAll(old(p.View()), replies)
    ensures forall s: Section :: p.loading[s] <==> old(p.loading[s]) && Unanswered(replies, s)
  {
    ghost var v0 := p.View();
    var i := 0;
    while i < |replies|
      invariant 0 <= i <= |replies| && p.Valid()
      invariant p.View() == HandleAll(v0, replies[..i])
    {
      p.Answer(replies[i]);
      assert replies[..i + 1][..i] == replies[..i];
      i := i + 1;
    }
    assert replies[..i] == replies;
    HandleAllLoading(v0, replies);
  }

  /** Once every request has come back, in whatever order and whatever the outcome,
      no section is loading. */
  method AllSettledRun(jobTitle: string, replies: seq<Reply>) returns (p: Page)
    requires forall s: Section :: !Unanswered(replies, s)
    ensures p.Valid()
    ensures forall s: Section :: p.TabStatus(s) != Loading
  {
    p := new Page();
    p.Load(jobTitle);
    Replay(p, replies);
  }
}
