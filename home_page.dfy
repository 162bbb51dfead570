/** The state of the home page and its submit handler: five requests run one after
    the other, the first failure skips the rest, the page is marked analysed only
    when all five succeed, and loading ends either way. What each request returned
    is an input. */
module HomePage {
  import opened Text
  import SkillsParser
  import Backend

  /** A request's result: the parsed body, or a failure (`!response.ok` or a throw). */
  datatype Response<T> = Ok(body: T) | NotOk

  /** The five answers, in request order; `None` inside a body is a missing field. */
  datatype Replies = Replies(
    analysis: Response<Option<string>>, courses: Response<Option<seq<Backend.CourseRecord>>>,
    videos: Response<Option<seq<Backend.Video>>>, jobs: Response<Option<string>>,
    projects: Response<Option<string>>)

  datatype Call = AnalyzeResume | FetchCourses | YoutubeCourses | JobMatching | ProjectGenerator

  const Steps: seq<Call> := [AnalyzeResume, FetchCourses, YoutubeCourses, JobMatching, ProjectGenerator]

  const MissingInput := "Please upload a resume and enter a job title"
  const SomethingWrong := "Something went wrong. Check console for details."
  const NoFile := "No file chosen"

  /** Step `i` succeeds; the analysis also needs its `missing_skills` field, which
      the handler splits. */
  predicate StepOk(r: Replies, i: nat) {
    if i == 0 then r.analysis.Ok? && r.analysis.body.Some?
    else if i == 1 then r.courses.Ok?
    else if i == 2 then r.videos.Ok?
    else if i == 3 then r.jobs.Ok?
    else i == 4 && r.projects.Ok?
  }

  /** How many steps succeed before the first failure. */
  function Succeeded(r: Replies): (n: nat)
    ensures n <= 5
  {
    if !StepOk(r, 0) then 0
    else if !StepOk(r, 1) then 1
    else if !StepOk(r, 2) then 2
    else if !StepOk(r, 3) then 3
    else if !StepOk(r, 4) then 4
    else 5
  }

  /** The requests that are made: every succeeding one and the first failing one,
      in request order. */
  function Started(r: Replies): (c: seq<Call>)
    ensures 1 <= |c| <= 5 && c == Steps[..|c|]
    ensures |c| == Min(Succeeded(r) + 1, 5)
  {
    Steps[..Min(Succeeded(r) + 1, 5)]
  }

  /** `Succeeded` counts exactly the steps before the first failing one. */
  lemma SucceededIsFirstFailure(r: Replies, k: nat)
    requires k <= 5
    ensures Succeeded(r) == k <==> (forall i :: 0 <= i < k ==> StepOk(r, i)) && (k < 5 ==> !StepOk(r, k))
  {
  }


  /** Every field of the page at one moment. */
  datatype State = State(
    file: Option<string>, fileName: string, jobTitle: string, missingSkills: seq<string>,
    courses: seq<Backend.CourseRecord>, videos: seq<Backend.Video>,
    jobRecommendations: Option<string>, projectIdeas: Option<string>,
    loading: bool, analyzed: bool, alerts: seq<string>, calls: seq<Call>)

  /** What the `try` block leaves behind: the requests made, and the result of each
      request that succeeded in the field it sets. */
  function Requested(s: State, r: Replies): State {
    var n := Succeeded(r);
    s.(calls := s.calls + Started(r),
      missingSkills := if n >= 1 then SkillsParser.LineItems(r.analysis.body.value) else s.missingSkills,
      courses := if n >= 2 then GetOr(r.courses.body, []) else s.courses,
      videos := if n >= 3 then GetOr(r.videos.body, []) else s.videos,
      jobRecommendations := if n >= 4 then r.jobs.body else s.jobRecommendations,
      projectIdeas := if n == 5 then r.projects.body else s.projectIdeas)
  }

  /** What `handleSubmit` leaves behind: the alert alone when the file or the job
      title is missing; otherwise the requests with loading on, then the analysed
      flag on full success or the alert on a failure, and loading off. */
  function Submit(s: State, r: Replies): State {
    if s.file.None? || s.jobTitle == "" then s.(alerts := s.alerts + [MissingInput])
    else
      var t := Requested(s.(loading := true), r);
      if Succeeded(r) == 5 then t.(analyzed := true, loading := false)
      else t.(alerts := t.alerts + [SomethingWrong], loading := false)
  }

  /** The `try` block of `handleSubmit`: the five requests in order, each result
      stored as it arrives, stopping at the first failure. The arguments are the
      values shown before; `ok` is whether every request succeeded. */
  method RunRequests(r: Replies, skills0: seq<string>, courses0: seq<Backend.CourseRecord>,
    videos0: seq<Backend.Video>, jobs0: Option<string>, projects0: Option<string>)
    returns (made: seq<Call>, skills: seq<string>, courses: seq<Backend.CourseRecord>,
      videos: seq<Backend.Video>, jobs: Option<string>, projects: Option<string>, ok: bool)
    ensures var t := Requested(State(None, "", "", skills0, courses0, videos0, jobs0, projects0, false, false, [], []), r);
      made == t.calls && skills == t.missingSkills && courses == t.courses && videos == t.videos &&
      jobs == t.jobRecommendations && projects == t.projectIdeas
    ensures ok == (Succeeded(r) == 5)
  {
    skills, courses, videos, jobs, projects, ok := skills0, courses0, videos0, jobs0, projects0, false;
    made := [AnalyzeResume];
    if !StepOk(r, 0) {
      return;
    }
    skills := SkillsParser.LineItems(r.analysis.body.value);
    var rest;
    rest, courses, videos, jobs, projects, ok := RunAfterAnalysis(r, courses0, videos0, jobs0, projects0);
    made := made + rest;
  }

  /** The four requests after a successful analysis. */
  method RunAfterAnalysis(r: Replies, courses0: seq<Backend.CourseRecord>,
    videos0: seq<Backend.Video>, jobs0: Option<string>, projects0: Option<string>)
    returns (made: seq<Call>, courses: seq<Backend.CourseRecord>,
      videos: seq<Backend.Video>, jobs: Option<string>, projects: Option<string>, ok: bool)
    requires StepOk(r, 0)
    ensures [AnalyzeResume] + made == Started(r) && ok == (Succeeded(r) == 5)
    ensures courses == if Succeeded(r) >= 2 then GetOr(r.courses.body, []) else courses0
    ensures videos == if Succeeded(r) >= 3 then GetOr(r.videos.body, []) else videos0
    ensures jobs == if Succeeded(r) >= 4 then r.jobs.body else jobs0
    ensures projects == if Succeeded(r) == 5 then r.projects.body else projects0
  {
    courses, videos, jobs, projects, ok := courses0, videos0, jobs0, projects0, false;
    made := [FetchCourses];
    if !StepOk(r, 1) {
      return;
    }
    courses := GetOr(r.courses.body, []);
    made := made + [YoutubeCourses];
    if !StepOk(r, 2) {
      return;
    }
    videos := GetOr(r.videos.body, []);
    made := made + [JobMatching];
    if !StepOk(r, 3) {
      return;
    }
    jobs := r.jobs.body;
    made := made + [ProjectGenerator];
    if !StepOk(r, 4) {
      return;
    }
    projects := r.projects.body;
    ok := true;
  }

  // ---- What a submit does -----------------------------------------------------

  /** Without a file or a job title, the alert is the only change. */
  lemma SubmitWithoutInput(s: State, r: Replies)
    requires s.file.None? || s.jobTitle == ""
    ensures Submit(s, r).alerts == s.alerts + [MissingInput]
    ensures Submit(s, r).(alerts := s.alerts) == s
  {
  }

  /** When step `k` is the first to fail, the requests up to and including it are
      made, the fields of the steps before it are set and the later ones keep their
      values, one alert is added, and the page is not newly analysed. */
  lemma SubmitStopsAtFirstFailure(s: State, r: Replies, k: nat)
    requires s.file.Some? && s.jobTitle != ""
    requires k < 5 && (forall i :: 0 <= i < k ==> StepOk(r, i)) && !StepOk(r, k)
    ensures var t := Submit(s, r);
      t.calls == s.calls + Steps[..k + 1] && t.alerts == s.alerts + [SomethingWrong] &&
      t.analyzed == s.analyzed && !t.loading &&
      (k <= 0 ==> t.missingSkills == s.missingSkills) && (k <= 1 ==> t.courses == s.courses) &&
      (k <= 2 ==> t.videos == s.videos) && (k <= 3 ==> t.jobRecommendations == s.jobRecommendations) &&
      t.projectIdeas == s.projectIdeas
  {
    SucceededIsFirstFailure(r, k);
  }

  /** When all five succeed, all five requests are made, every field shows its
      result, there is no alert, and the page is analysed. */
  lemma SubmitAllSucceed(s: State, r: Replies)
    requires s.file.Some? && s.jobTitle != ""
    requires forall i :: 0 <= i < 5 ==> StepOk(r, i)
    ensures var t := Submit(s, r);
      t.calls == s.calls + Steps && t.alerts == s.alerts && t.analyzed && !t.loading &&
      t.missingSkills == SkillsParser.LineItems(r.analysis.body.value) &&
      t.courses == GetOr(r.courses.body, []) && t.videos == GetOr(r.videos.body, []) &&
      t.jobRecommendations == r.jobs.body && t.projectIdeas == r.projects.body
  {
    SucceededIsFirstFailure(r, 5);
    assert Started(r) == Steps;
    var t := Requested(s.(loading := true), r);
    assert Submit(s, r) == t.(analyzed := true, loading := false);
  }

  /** Any submit with both inputs ends loading after one to five requests made in
      order, and it either analyses the page without an alert or adds one alert. */
  lemma SubmitSettles(s: State, r: Replies)
    requires s.file.Some? && s.jobTitle != ""
    ensures var t := Submit(s, r); var m := |t.calls| - |s.calls|;
      !t.loading && t.file == s.file && t.jobTitle == s.jobTitle &&
      1 <= m <= 5 && t.calls == s.calls + Steps[..m] &&
      ((t.analyzed && t.alerts == s.alerts && m == 5) ||
       (t.alerts == s.alerts + [SomethingWrong] && t.analyzed == s.analyzed))
  {
  }

  class Page {
    /** The chosen file, by name. */
    var file: Option<string>
    var fileName: string
    var jobTitle: string
    var missingSkills: seq<string>
    var courses: seq<Backend.CourseRecord>
    var videos: seq<Backend.Video>
    var jobRecommendations: Option<string>
    var projectIdeas: Option<string>
    var loading: bool
    var analyzed: bool
    /** The alerts shown, in order. */
    var alerts: seq<string>
    /** The requests made, in order. */
    var calls: seq<Call>

    constructor()
      ensures file.None? && fileName == NoFile && jobTitle == "" && !loading && !analyzed
      ensures missingSkills == [] && courses == [] && videos == []
      ensures jobRecommendations == Some("") && projectIdeas == Some("") && alerts == [] && calls == []
    {
      file, fileName, jobTitle := None, NoFile, "";
      missingSkills, courses, videos := [], [], [];
      jobRecommendations, projectIdeas := Some(""), Some("");
      loading, analyzed, alerts, calls := false, false, [], [];
    }

    /** `handleFileChange`: a chosen file and its name; no choice changes nothing. */
    method ChooseFile(selected: Option<string>)
      modifies this
      ensures selected.Some? ==> file == selected && fileName == selected.value
      ensures selected.None? ==> file == old(file) && fileName == old(fileName)
      ensures jobTitle == old(jobTitle) && missingSkills == old(missingSkills) && courses == old(courses)
      ensures videos == old(videos) && jobRecommendations == old(jobRecommendations)
      ensures projectIdeas == old(projectIdeas) && loading == old(loading) && analyzed == old(analyzed)
      ensures alerts == old(alerts) && calls == old(calls)
    {
      if selected.Some? {
        file := selected;
        fileName := selected.value;
      }
    }

    /** `handleJobTitleChange`. */
    method SetJobTitle(title: string)
      modifies this
      ensures jobTitle == title
      ensures file == old(file) && fileName == old(fileName) && missingSkills == old(missingSkills)
      ensures courses == old(courses) && videos == old(videos) && jobRecommendations == old(jobRecommendations)
      ensures projectIdeas == old(projectIdeas) && loading == old(loading) && analyzed == old(analyzed)
      ensures alerts == old(alerts) && calls == old(calls)
    {
      jobTitle := title;
    }

    function View(): State
      reads this
    {
      State(file, fileName, jobTitle, missingSkills, courses, videos, jobRecommendations,
        projectIdeas, loading, analyzed, alerts, calls)
    }

    /** The page shows `t`. */
    method Show(t: State)
      modifies this
      ensures View() == t
    {
      file, fileName, jobTitle, missingSkills := t.file, t.fileName, t.jobTitle, t.missingSkills;
      courses, videos, jobRecommendations, projectIdeas := t.courses, t.videos, t.jobRecommendations, t.projectIdeas;
      loading, analyzed, alerts, calls := t.loading, t.analyzed, t.alerts, t.calls;
      assert t == State(t.file, t.fileName, t.jobTitle, t.missingSkills, t.courses, t.videos,
        t.jobRecommendations, t.projectIdeas, t.loading, t.analyzed, t.alerts, t.calls);
    }

    /** `handleSubmit`. */
    method HandleSubmit(r: Replies)
      modifies this
      ensures View() == Submit(old(View()), r)
    {
      if file.None? || jobTitle == "" {
        alerts := alerts + [MissingInput];
        return;
      }
      loading := true;
      var made, sk, co, vi, jo, pr, ok :=
        RunRequests(r, missingSkills, courses, videos, jobRecommendations, projectIdeas);
      var t := View().(calls := calls + made, missingSkills := sk, courses := co, videos := vi,
        jobRecommendations := jo, projectIdeas := pr);
      if ok {
        t := t.(analyzed := true);
      } else {
        t := t.(alerts := t.alerts + [SomethingWrong]);
      }
      Show(t.(loading := false));
    }

    /** The `New Analysis` button: every result and input is cleared. */
    method NewAnalysis()
      modifies this
      ensures !analyzed && missingSkills == [] && courses == [] && videos == []
      ensures jobRecommendations == Some("") && projectIdeas == Some("")
      ensures file.None? && fileName == NoFile && jobTitle == ""
      ensures loading == old(loading) && alerts == old(alerts) && calls == old(calls)
    {
      analyzed := false;
      missingSkills, courses, videos := [], [], [];
      jobRecommendations, projectIdeas := Some(""), Some("");
      file, fileName, jobTitle := None, NoFile, "";
    }
  }

  // ---- Runs of the page -------------------------------------------------------

  /** Without a job title nothing is requested. */
  method SubmitWithoutTitle(name: string, r: Replies) returns (p: Page)
    ensures p.calls == [] && !p.analyzed && !p.loading && p.alerts == [MissingInput]
  {
    p := new Page();
    p.ChooseFile(Some(name));
    p.HandleSubmit(r);
  }

  /** A failed course request stops the run after two requests: the skills are
      shown, nothing else is, and the page is not analysed. */
  method CoursesFailRun(name: string, title: string, skills: string, r: Replies) returns (p: Page)
    requires title != ""
    requires r.analysis == Ok(Some(skills)) && r.courses == NotOk
    ensures p.calls == [AnalyzeResume, FetchCourses]
    ensures p.missingSkills == SkillsParser.LineItems(skills) && p.courses == []
    ensures !p.analyzed && !p.loading && p.alerts == [SomethingWrong]
  {
    p := new Page();
    p.ChooseFile(Some(name));
    p.SetJobTitle(title);
    assert StepOk(r, 0) && !StepOk(r, 1);
    ghost var s0 := p.View();
    assert s0.calls == [] && s0.courses == [] && s0.alerts == [];
    p.HandleSubmit(r);
    SucceededIsFirstFailure(r, 1);
    assert Succeeded(r) == 1;
    ghost var t := Submit(s0, r);
    assert t.missingSkills == SkillsParser.LineItems(skills);
    SubmitStopsAtFirstFailure(s0, r, 1);
    assert Steps[..2] == [AnalyzeResume, FetchCourses];
    assert p.View() == t;
  }

  /** A run where every request succeeds marks the page analysed; a new analysis
      then clears it. */
  method FullRunThenReset(name: string, title: string, r: Replies) returns (p: Page)
    requires title != ""
    requires forall i :: 0 <= i < 5 ==> StepOk(r, i)
    ensures p.calls == Steps && p.alerts == [] && !p.loading
    ensures !p.analyzed && p.missingSkills == [] && p.jobTitle == "" && p.file.None?
  {
    p := new Page();
    p.ChooseFile(Some(name));
    p.SetJobTitle(title);
    p.HandleSubmit(r);
    assert p.analyzed;
    p.NewAnalysis();
  }
}
