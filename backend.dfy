/** The shaping the back end does around its outside calls: the course search keeps
    results from the expected site and falls back to two sample courses, the video
    search keeps the results that are videos, the three generator endpoints pull the
    text out of the model's answer, and the resume text is cut to 3000 characters.
    The calls themselves are inputs: what the request returned, or how it failed. */
module Backend {
  import opened Text

  /** What a request to an outside service gave: the parsed body, or the exception. */
  datatype Fetch<T> = Got(body: T) | HttpError(detail: string) | RequestError(detail: string)

  // ---- Course search ------------------------------------------------------

  /** One search result; `None` is a key the result does not have. */
  datatype SearchItem = SearchItem(title: Option<string>, link: Option<string>, snippet: Option<string>)

  /** The search answer; `items` is `None` when the key is missing. */
  datatype SearchResponse = SearchResponse(items: Option<seq<SearchItem>>)

  datatype CourseRecord = CourseRecord(title: string, link: string, snippet: string, platform: string)

  /** `domain in item.get("link", "")`. */
  predicate LinkIn(item: SearchItem, domain: string) {
    Contains(GetOr(item.link, ""), domain)
  }

  function ToRecord(item: SearchItem, platform: string): CourseRecord {
    CourseRecord(GetOr(item.title, "Untitled Course"), GetOr(item.link, ""), GetOr(item.snippet, ""), platform)
  }

  /** The records the loop over one answer's items appends, in item order. */
  function Collected(items: seq<SearchItem>, domain: string, platform: string): seq<CourseRecord> {
    Map(Filter(items, (x: SearchItem) => LinkIn(x, domain)), (x: SearchItem) => ToRecord(x, platform))
  }

  function CollectedOf(data: SearchResponse, domain: string, platform: string): seq<CourseRecord> {
    if data.items.Some? then Collected(data.items.value, domain, platform) else []
  }

  lemma CollectedStep(items: seq<SearchItem>, i: nat, domain: string, platform: string)
    requires i < |items|
    ensures Collected(items[..i + 1], domain, platform) ==
      Collected(items[..i], domain, platform) + (if LinkIn(items[i], domain) then [ToRecord(items[i], platform)] else [])
  {
    var p := (x: SearchItem) => LinkIn(x, domain);
    var f := (x: SearchItem) => ToRecord(x, platform);
    assert items[..i + 1] == items[..i] + [items[i]];
    FilterConcat(items[..i], [items[i]], p);
    FilterSingleton(items[i], p);
    MapConcat(Filter(items[..i], p), Filter([items[i]], p), f);
  }

  /** The `for item in data["items"]` loop of `fetch_courses` for one site. */
  method CollectCourses(data: SearchResponse, domain: string, platform: string) returns (courses: seq<CourseRecord>)
    ensures courses == CollectedOf(data, domain, platform)
  {
    courses := [];
    if data.items.Some? {
      var items := data.items.value;
      var i := 0;
      while i < |items|
        invariant 0 <= i <= |items|
        invariant courses == Collected(items[..i], domain, platform)
      {
        CollectedStep(items, i, domain, platform);
        if Contains(GetOr(items[i].link, ""), domain) {
          courses := courses + [ToRecord(items[i], platform)];
        }
        i := i + 1;
      }
      assert items[..|items|] == items;
    }
  }

  /** Every kept record links into the site, carries its platform tag and comes from
      an item of the answer; every item that links into the site is kept. */
  lemma CollectedExactly(items: seq<SearchItem>, domain: string, platform: string)
    requires domain != ""
    ensures forall c :: c in Collected(items, domain, platform) ==>
      Contains(c.link, domain) && c.platform == platform &&
      exists x :: x in items && x.link == Some(c.link) && c == ToRecord(x, platform)
    ensures forall x :: x in items && LinkIn(x, domain) ==> ToRecord(x, platform) in Collected(items, domain, platform)
  {
    var p := (x: SearchItem) => LinkIn(x, domain);
    var f := (x: SearchItem) => ToRecord(x, platform);
    var kept := Filter(items, p);
    forall c | c in Collected(items, domain, platform)
      ensures Contains(c.link, domain) && c.platform == platform &&
        exists x :: x in items && x.link == Some(c.link) && c == ToRecord(x, platform)
    {
      var i :| 0 <= i < |kept| && Map(kept, f)[i] == c;
      assert kept[i] in kept;
      var x := kept[i];
      assert x in items && LinkIn(x, domain);
    }
    forall x | x in items && LinkIn(x, domain)
      ensures ToRecord(x, platform) in Collected(items, domain, platform)
    {
      assert x in kept;
      var i :| 0 <= i < |kept| && kept[i] == x;
      assert Map(kept, f)[i] == f(x);
    }
  }

  /** The two courses returned when the search finds nothing or fails. */
  function SampleCourses(skill: string): (r: seq<CourseRecord>)
    ensures |r| == 2 && r[0].platform == "Coursera" && r[1].platform == "Udemy"
  {
    [ CourseRecord("Introduction to " + skill, "https://www.coursera.org/",
        "Learn the fundamentals of " + skill + " with this comprehensive course", "Coursera"),
      CourseRecord("Advanced " + skill + " Masterclass", "https://www.udemy.com/",
        "Take your " + skill + " skills to the next level with expert instruction", "Udemy") ]
  }

  /** The `courses` list of `fetch_courses`: Coursera results, then Udemy results,
      or the samples when both lists are empty or either request failed. */
  function CoursesFor(coursera: Fetch<SearchResponse>, udemy: Fetch<SearchResponse>, skill: string): (r: seq<CourseRecord>)
    ensures |r| > 0
    ensures !coursera.Got? || !udemy.Got? ==> r == SampleCourses(skill)
    ensures coursera.Got? && udemy.Got? ==>
      var found := CollectedOf(coursera.body, "coursera.org", "Coursera") + CollectedOf(udemy.body, "udemy.com", "Udemy");
      r == if found == [] then SampleCourses(skill) else found
  {
    if coursera.Got? && udemy.Got? then
      var found := CollectedOf(coursera.body, "coursera.org", "Coursera") + CollectedOf(udemy.body, "udemy.com", "Udemy");
      if found == [] then SampleCourses(skill) else found
    else SampleCourses(skill)
  }

  /** `fetch_courses`: the two loops, then the fallback. */
  method FetchCourses(coursera: Fetch<SearchResponse>, udemy: Fetch<SearchResponse>, skill: string) returns (all: seq<CourseRecord>)
    ensures all == CoursesFor(coursera, udemy, skill)
  {
    if !coursera.Got? || !udemy.Got? {
      return SampleCourses(skill);
    }
    var courseraCourses := CollectCourses(coursera.body, "coursera.org", "Coursera");
    var udemyCourses := CollectCourses(udemy.body, "udemy.com", "Udemy");
    all := courseraCourses + udemyCourses;
    if all == [] {
      all := SampleCourses(skill);
    }
  }

  /** Found Coursera records come before found Udemy records, and each is what its
      site's loop kept. */
  lemma CoursesForOrder(c: SearchResponse, u: SearchResponse, skill: string, i: nat)
    requires CollectedOf(c, "coursera.org", "Coursera") + CollectedOf(u, "udemy.com", "Udemy") != []
    requires i < |CoursesFor(Got(c), Got(u), skill)|
    ensures var n := |CollectedOf(c, "coursera.org", "Coursera")|;
      var r := CoursesFor(Got(c), Got(u), skill);
      (i < n ==> r[i] == CollectedOf(c, "coursera.org", "Coursera")[i] && r[i].platform == "Coursera") &&
      (i >= n ==> r[i] == CollectedOf(u, "udemy.com", "Udemy")[i - n] && r[i].platform == "Udemy")
  {
    var cs := CollectedOf(c, "coursera.org", "Coursera");
    var us := CollectedOf(u, "udemy.com", "Udemy");
    assert CoursesFor(Got(c), Got(u), skill) == cs + us;
    if i < |cs| {
      CollectedPlatform(c, "coursera.org", "Coursera", i);
    } else {
      CollectedPlatform(u, "udemy.com", "Udemy", i - |cs|);
    }
  }

  /** Every record one site's loop keeps carries that site's platform tag. */
  lemma CollectedPlatform(data: SearchResponse, domain: string, platform: string, i: nat)
    requires i < |CollectedOf(data, domain, platform)|
    ensures CollectedOf(data, domain, platform)[i].platform == platform
  {
  }

  // ---- Video search -------------------------------------------------------

  datatype VideoSnippet = VideoSnippet(title: string, thumbnail: string, channel: string)

  /** One search result: its `id.videoId` if it has one, and its snippet if present. */
  datatype VideoItem = VideoItem(videoId: Option<string>, snippet: Option<VideoSnippet>)

  datatype VideoResponse = VideoResponse(items: Option<seq<VideoItem>>)

  datatype Video = Video(title: string, videoId: string, thumbnail: string, channel: string, link: string)

  /** The answer of `get_youtube_courses`: the videos with an optional message, or an error body. */
  datatype VideoReply = Videos(videos: seq<Video>, message: Option<string>) | ErrorReply(error: string)

  const WatchPrefix := "https://www.youtube.com/watch?v="
  const NoVideosMessage := "No YouTube videos found for this skill."

  predicate IsVideo(x: VideoItem) { x.videoId.Some? }

  /** `str(KeyError('snippet'))` is the quoted key. */
  const MissingSnippet := "Unexpected error: 'snippet'"

  function ToVideo(x: VideoItem): (v: Video)
    requires x.videoId.Some? && x.snippet.Some?
    ensures v.videoId == x.videoId.value && v.link == WatchPrefix + x.videoId.value
  {
    Video(x.snippet.value.title, x.videoId.value, x.snippet.value.thumbnail, x.snippet.value.channel,
      WatchPrefix + x.videoId.value)
  }

  /** The list comprehension over the items that are videos; a video without a
      snippet raises, and the handler answers with an error body. */
  function VideosOf(items: seq<VideoItem>): (r: VideoReply)
    ensures r.Videos? ==> r.message.None? && |r.videos| == |Filter(items, IsVideo)|
    ensures r.Videos? ==> forall i :: 0 <= i < |r.videos| ==>
      Filter(items, IsVideo)[i].videoId == Some(r.videos[i].videoId) && r.videos[i].link == WatchPrefix + r.videos[i].videoId &&
      Filter(items, IsVideo)[i].snippet == Some(VideoSnippet(r.videos[i].title, r.videos[i].thumbnail, r.videos[i].channel))
    ensures r.ErrorReply? <==> exists x :: x in items && IsVideo(x) && x.snippet.None?
    ensures r.ErrorReply? ==> r.error == MissingSnippet
  {
    var kept := Filter(items, IsVideo);
    if exists i :: 0 <= i < |kept| && kept[i].snippet.None? then
      var i :| 0 <= i < |kept| && kept[i].snippet.None?;
      assert kept[i] in kept;
      ErrorReply(MissingSnippet)
    else
      assert forall x :: x in items && IsVideo(x) ==> x.snippet.Some? by {
        forall x | x in items && IsVideo(x) ensures x.snippet.Some? {
          assert x in kept;
        }
      }
      assert forall i :: 0 <= i < |kept| ==> IsVideo(kept[i]) by {
        forall i | 0 <= i < |kept| ensures IsVideo(kept[i]) {
          assert kept[i] in kept;
        }
      }
      Videos(seq(|kept|, i requires 0 <= i < |kept| => ToVideo(kept[i])), None)
  }

  /** `get_youtube_courses`, from what the request gave. */
  function YoutubeCourses(response: Fetch<VideoResponse>): (r: VideoReply)
    ensures response.HttpError? ==> r == ErrorReply("HTTP error occurred: " + response.detail)
    ensures response.RequestError? ==> r == ErrorReply("Request error occurred: " + response.detail)
    ensures response.Got? && (response.body.items.None? || response.body.items == Some([])) ==>
      r == Videos([], Some(NoVideosMessage))
    ensures response.Got? && response.body.items.Some? && response.body.items.value != [] ==>
      r == VideosOf(response.body.items.value)
  {
    match response
    case HttpError(d) => ErrorReply("HTTP error occurred: " + d)
    case RequestError(d) => ErrorReply("Request error occurred: " + d)
    case Got(data) =>
      if data.items.None? || data.items.value == [] then Videos([], Some(NoVideosMessage))
      else VideosOf(data.items.value)
  }

  /** Items that are not videos never show up, and without items there are no videos. */
  lemma NoVideosWithoutVideoItems(response: Fetch<VideoResponse>)
    requires response.Got? && response.body.items.Some?
    requires forall x :: x in response.body.items.value ==> !IsVideo(x)
    ensures YoutubeCourses(response).Videos? && YoutubeCourses(response).videos == []
  {
    var items := response.body.items.value;
    assert Filter(items, IsVideo) == [] by {
      if Filter(items, IsVideo) != [] {
        assert Filter(items, IsVideo)[0] in Filter(items, IsVideo);
      }
    }
  }

  // ---- The generator endpoints -----------------------------------------------

  /** A model answer: the status, the raw body, and the `candidates` list when the
      parsed body has one — each candidate as the texts of its content parts. */
  datatype GeminiResponse = GeminiResponse(status: int, text: string, candidates: Option<seq<seq<string>>>)

  /** What an endpoint answers: its field, or `{"error": str(e)}`. */
  datatype Reply = Field(value: string) | ErrorBody(error: string)

  /** `str(IndexError)` for an empty list. */
  const IndexOutOfRange := "list index out of range"

  const NoSkillsFallback := "No missing skills found or response format changed."
  const NoJobsFallback := "No job recommendations found."
  const NoProjectsFallback := "No project ideas found."

  /** The shaping shared by `analyze_resume`, `job_matching` and `project_generator`. */
  function CandidateText(response: GeminiResponse, fallback: string): (r: Reply)
    ensures response.status != 200 ==> r == Field("Error from API: " + response.text)
    ensures response.status == 200 && response.candidates.None? ==> r == Field(fallback)
    ensures response.status == 200 && response.candidates.Some? ==>
      var cs := response.candidates.value;
      r == if |cs| > 0 && |cs[0]| > 0 then Field(cs[0][0]) else ErrorBody(IndexOutOfRange)
  {
    if response.status != 200 then Field("Error from API: " + response.text)
    else match response.candidates
      case None => Field(fallback)
      case Some(cs) =>
        if |cs| > 0 && |cs[0]| > 0 then Field(cs[0][0]) else ErrorBody(IndexOutOfRange)
  }

  /** The candidate list has a first candidate with a first part. */
  predicate HasFirstPart(cs: seq<seq<string>>) { |cs| > 0 && |cs[0]| > 0 }

  /** `job_matching`: a request that raises ends in `except Exception`, which answers
      `{"error": str(e)}`; an answer is shaped by `CandidateText`. */
  function JobMatching(response: Fetch<GeminiResponse>): (r: Reply)
    ensures !response.Got? ==> r == ErrorBody(response.detail)
    ensures response.Got? ==> r == CandidateText(response.body, NoJobsFallback)
  {
    if response.Got? then CandidateText(response.body, NoJobsFallback) else ErrorBody(response.detail)
  }

  /** `project_generator`, the same shape with its own fallback text. */
  function ProjectGenerator(response: Fetch<GeminiResponse>): (r: Reply)
    ensures !response.Got? ==> r == ErrorBody(response.detail)
    ensures response.Got? ==> r == CandidateText(response.body, NoProjectsFallback)
  {
    if response.Got? then CandidateText(response.body, NoProjectsFallback) else ErrorBody(response.detail)
  }

  /** `analyze_resume`: the PDF is read first. When that raises, no request is made and
      the `HTTPException` the extraction raises is caught as `{"error": str(e)}`; a
      request that raises is answered the same way; an answer is shaped by `CandidateText`.
      The extracted text only goes into the prompt. */
  function AnalyzeResume(pdf: PdfRead, response: Fetch<GeminiResponse>): (r: Reply)
    ensures pdf.Unreadable? ==> r == ErrorBody(HttpExceptionText(PdfErrorStatus, PdfErrorPrefix + pdf.reason))
    ensures pdf.Pages? && !response.Got? ==> r == ErrorBody(response.detail)
    ensures pdf.Pages? && response.Got? ==> r == CandidateText(response.body, NoSkillsFallback)
  {
    match ExtractFrom(pdf)
    case PdfFailure(status, detail) => ErrorBody(HttpExceptionText(status, detail))
    case Extracted(_) =>
      if response.Got? then CandidateText(response.body, NoSkillsFallback) else ErrorBody(response.detail)
  }

  /** An endpoint answers `error` exactly when its request raised or the candidate list
      has no first part; it answers a field in every other case. */
  lemma JobMatchingErrorIff(response: Fetch<GeminiResponse>)
    ensures JobMatching(response).ErrorBody? <==>
      !response.Got? || (response.body.status == 200 && response.body.candidates.Some? &&
        !HasFirstPart(response.body.candidates.value))
  {
  }

  /** With a readable PDF, the resume endpoint fails exactly as the other two do. */
  lemma AnalyzeResumeErrorIff(pages: seq<string>, response: Fetch<GeminiResponse>)
    ensures AnalyzeResume(Pages(pages), response).ErrorBody? <==> JobMatching(response).ErrorBody?
  {
  }

  /** The three endpoints differ only in the fallback text: when the request raised,
      when the answer has an error status, or when it has candidates, all three give the
      same reply, whatever the pages of a readable resume. */
  lemma EndpointsAgree(pages: seq<string>, response: Fetch<GeminiResponse>)
    requires !response.Got? || response.body.status != 200 || response.body.candidates.Some?
    ensures AnalyzeResume(Pages(pages), response) == JobMatching(response) == ProjectGenerator(response)
  {
  }

  // ---- Resume text ------------------------------------------------------------

  predicate IsLineFeed(c: char) { c == '\n' }

  /** `"\n".join(pages)`. */
  function Join(pages: seq<string>): (r: string)
    ensures pages == [] ==> r == ""
  {
    if |pages| <= 1 then (if pages == [] then "" else pages[0])
    else Join(pages[..|pages| - 1]) + "\n" + pages[|pages| - 1]
  }

  /** Splitting the joined text at line feeds gives the pages back, when no page has one. */
  lemma {:induction false} SplitJoinedPages(pages: seq<string>)
    requires pages != []
    requires forall k :: 0 <= k < |pages| ==> '\n' !in pages[k]
    ensures Split(Join(pages), IsLineFeed) == pages
  {
    var last := pages[|pages| - 1];
    SplitNoSeparator(last, IsLineFeed);
    if |pages| > 1 {
      var init := pages[..|pages| - 1];
      SplitJoinedPages(init);
      SplitJoin(Join(init), '\n', last, IsLineFeed);
      assert Join(init) + "\n" + last == Join(init) + ['\n'] + last;
      assert init + [last] == pages;
    }
  }

  const TextCap := 3000

  /** `extract_text_from_pdf`: the joined page texts, first 3000 characters. */
  function ExtractText(pages: seq<string>): (r: string)
    ensures |r| == Min(|Join(pages)|, TextCap)
    ensures r == Join(pages)[..|r|]
  {
    var text := Join(pages);
    if |text| <= TextCap then text else text[..TextCap]
  }

  /** What reading the uploaded file gave: the text of each page, or the text of the
      exception PyMuPDF raised. */
  datatype PdfRead = Pages(pages: seq<string>) | Unreadable(reason: string)

  /** What `extract_text_from_pdf` ends in: the text, or the `HTTPException` it raises. */
  datatype Extraction = Extracted(text: string) | PdfFailure(status: nat, detail: string)

  const PdfErrorStatus := 500
  const PdfErrorPrefix := "Error processing PDF: "

  /** `str()` of an `HTTPException`: Starlette renders it as `<status>: <detail>`. */
  function HttpExceptionText(status: nat, detail: string): string {
    NatToString(status) + ": " + detail
  }

  /** `extract_text_from_pdf` with its `except`: any failure to read the file becomes a
      500 whose detail names the reason. */
  function ExtractFrom(pdf: PdfRead): (r: Extraction)
    ensures pdf.Pages? ==> r == Extracted(ExtractText(pdf.pages))
    ensures pdf.Unreadable? ==> r == PdfFailure(PdfErrorStatus, PdfErrorPrefix + pdf.reason)
  {
    match pdf
    case Pages(pages) => Extracted(ExtractText(pages))
    case Unreadable(reason) => PdfFailure(PdfErrorStatus, PdfErrorPrefix + reason)
  }
}
