/** The client-side course fallback and the choice of the backend address.

    When the course service fails or finds nothing, the results page builds a course
    list of its own: job-specific entries for every known job key the job title
    contains, then for every missing skill the table entries for the skill and for
    its synonym and a generic search link; duplicates by title are dropped, free
    courses move to the front, and twelve at most are kept. */
module Api {
  import opened Text

  /** A course link. `UdemySearch(q)` is `https://www.udemy.com/courses/search/?q=`
      followed by `encodeURIComponent(q)`; the encoding itself is not modelled. */
  datatype Link = Url(url: string) | UdemySearch(query: string)

  datatype Course = Course(title: string, link: Link, platform: string, snippet: string, isFree: bool)

  // ---- Tables -------------------------------------------------------------

  const JavaScriptFundamentals := Course("JavaScript Fundamentals - FreeCodeCamp",
    Url("https://www.freecodecamp.org/learn/javascript-algorithms-and-data-structures/"), "FreeCodeCamp",
    "Learn JavaScript fundamentals including variables, functions, and data structures", true)
  const ModernJavaScript := Course("Modern JavaScript Course", Url("https://javascript.info/"), "JavaScript.info",
    "Comprehensive JavaScript tutorial covering ES6+ features", true)
  const PythonForEverybody := Course("Python for Everybody Specialization",
    Url("https://www.coursera.org/specializations/python"), "Coursera",
    "Learn Python programming from basics to advanced concepts", false)
  const PythonW3Schools := Course("Python Tutorial - W3Schools", Url("https://www.w3schools.com/python/"), "W3Schools",
    "Interactive Python tutorial with examples and exercises", true)

  /** `COMPREHENSIVE_FALLBACK_COURSES`: a key that is not in the table has no courses. */
  function Table(key: string): seq<Course> {
    if key == "javascript" then [JavaScriptFundamentals, ModernJavaScript]
    else if key == "python" then [PythonForEverybody, PythonW3Schools]
    else []
  }

  /** The job keys, in the order `Object.keys` lists them. */
  const JobKeys: seq<string> := ["software engineer", "data scientist", "product manager"]

  const FullStackWebDevelopment := Course("Full Stack Web Development", Url("https://www.freecodecamp.org/learn/"),
    "FreeCodeCamp", "Complete full-stack development curriculum", true)
  const DataScienceFundamentals := Course("Data Science Fundamentals", Url("https://www.kaggle.com/learn"),
    "Kaggle Learn", "Free micro-courses in data science and machine learning", true)
  const ProductManagementFundamentals := Course("Product Management Fundamentals",
    Url("https://www.coursera.org/search?query=product%20management"), "Coursera",
    "Learn product management principles and practices", false)

  /** `jobSpecificCourses`. */
  function JobTable(key: string): seq<Course> {
    if key == "software engineer" then [FullStackWebDevelopment]
    else if key == "data scientist" then [DataScienceFundamentals]
    else if key == "product manager" then [ProductManagementFundamentals]
    else []
  }

  /** `skillSynonyms[skillLower] || skillLower`. */
  function Normalize(key: string): string {
    if key == "js" then "javascript"
    else if key == "react.js" then "react"
    else if key == "node.js" then "nodejs"
    else if key == "ml" then "machine learning"
    else if key == "ai" then "artificial intelligence"
    else key
  }

  /** The generic record every skill gets. */
  function Generic(skill: string): (r: Course)
    ensures !r.isFree && r.link == UdemySearch(skill) && r.platform == "Udemy"
  {
    Course(skill + " Complete Guide", UdemySearch(skill), "Udemy",
      "Comprehensive " + skill + " courses with practical projects", false)
  }

  // ---- Building the candidate list ----------------------------------------

  /** The job-specific courses of the first `k` job keys the title contains. */
  function JobCoursesUpTo(titleLower: string, k: nat): seq<Course>
    requires k <= |JobKeys|
  {
    if k == 0 then []
    else JobCoursesUpTo(titleLower, k - 1) + (if Contains(titleLower, JobKeys[k - 1]) then JobTable(JobKeys[k - 1]) else [])
  }

  function JobCourses(jobTitle: string): seq<Course> {
    JobCoursesUpTo(Lower(jobTitle), |JobKeys|)
  }

  /** What one skill contributes: the direct table entry, the synonym's entry and the
      generic record, in that order (a skill that is its own synonym is looked up twice). */
  function SkillCourses(skill: string): seq<Course> {
    Table(Lower(skill)) + Table(Normalize(Lower(skill))) + [Generic(skill)]
  }

  function SkillsCourses(skills: seq<string>): seq<Course> {
    if skills == [] then [] else SkillsCourses(skills[..|skills| - 1]) + SkillCourses(skills[|skills| - 1])
  }

  /** The list before de-duplication: job courses first, then the skills' courses. */
  function Candidates(skills: seq<string>, jobTitle: string): seq<Course> {
    JobCourses(jobTitle) + SkillsCourses(skills)
  }

  lemma JobCoursesStep(titleLower: string, k: nat)
    requires k < |JobKeys|
    ensures JobCoursesUpTo(titleLower, k + 1) ==
      JobCoursesUpTo(titleLower, k) + if Contains(titleLower, JobKeys[k]) then JobTable(JobKeys[k]) else []
  {
  }

  lemma SkillsCoursesStep(skills: seq<string>, i: nat)
    requires i < |skills|
    ensures SkillsCourses(skills[..i + 1]) == SkillsCourses(skills[..i]) + SkillCourses(skills[i])
  {
    assert skills[..i + 1][..i] == skills[..i];
  }

  /** The two `forEach` loops of `generateEnhancedFallbackCourses`, pushing onto `courses`. */
  method BuildCandidates(skills: seq<string>, jobTitle: string) returns (courses: seq<Course>)
    ensures courses == Candidates(skills, jobTitle)
  {
    courses := PushJobCourses(jobTitle);
    courses := PushSkillsCourses(courses, skills);
  }

  /** The first loop: every job key the lower-cased title contains adds its courses. */
  method PushJobCourses(jobTitle: string) returns (courses: seq<Course>)
    ensures courses == JobCourses(jobTitle)
  {
    courses := [];
    var titleLower := Lower(jobTitle);
    var k := 0;
    while k < |JobKeys|
      invariant 0 <= k <= |JobKeys|
      invariant courses == JobCoursesUpTo(titleLower, k)
    {
      JobCoursesStep(titleLower, k);
      if Contains(titleLower, JobKeys[k]) {
        courses := courses + JobTable(JobKeys[k]);
      }
      k := k + 1;
    }
  }

  /** The second loop: every skill pushes its courses after those already there. */
  method PushSkillsCourses(start: seq<Course>, skills: seq<string>) returns (courses: seq<Course>)
    ensures courses == start + SkillsCourses(skills)
  {
    courses := start;
    var i := 0;
    while i < |skills|
      invariant 0 <= i <= |skills|
      invariant courses == start + SkillsCourses(skills[..i])
    {
      var pushed := PushSkillCourses(courses, skills[i]);
      SkillsCoursesStep(skills, i);
      ConcatAssoc(start, SkillsCourses(skills[..i]), SkillCourses(skills[i]));
      courses := pushed;
      i := i + 1;
    }
    assert skills[..|skills|] == skills;
  }

  /** One skill's three pushes: direct entry, synonym entry, generic record. */
  method PushSkillCourses(start: seq<Course>, skill: string) returns (courses: seq<Course>)
    ensures courses == start + SkillCourses(skill)
  {
    var skillLower := Lower(skill);
    courses := start + Table(skillLower);
    courses := courses + Table(Normalize(skillLower));
    courses := courses + [Generic(skill)];
    ConcatAssoc(start, Table(skillLower), Table(Normalize(skillLower)));
    ConcatAssoc(start, Table(skillLower) + Table(Normalize(skillLower)), [Generic(skill)]);
  }

  // ---- De-duplication: `filter((c, i, self) => i === self.findIndex(...))` ----

  /** `self.findIndex((c) => c.title === t)` from `i` on, or `|xs|`. */
  function FindTitle(xs: seq<Course>, t: string, i: nat): (r: nat)
    requires i <= |xs|
    ensures i <= r <= |xs|
    ensures forall j :: i <= j < r ==> xs[j].title != t
    ensures r < |xs| ==> xs[r].title == t
    decreases |xs| - i
  {
    if i == |xs| || xs[i].title == t then i else FindTitle(xs, t, i + 1)
  }

  predicate FirstOfTitle(xs: seq<Course>, i: nat)
    requires i < |xs|
  {
    FindTitle(xs, xs[i].title, 0) == i
  }

  /** The survivors among positions `i..`. */
  function KeepFirsts(xs: seq<Course>, i: nat): (r: seq<Course>)
    requires i <= |xs|
    ensures |r| <= |xs| - i
    decreases |xs| - i
  {
    if i == |xs| then []
    else (if FirstOfTitle(xs, i) then [xs[i]] else []) + KeepFirsts(xs, i + 1)
  }

  function Dedupe(xs: seq<Course>): (r: seq<Course>)
    ensures |r| <= |xs|
  {
    KeepFirsts(xs, 0)
  }

  predicate UniqueTitles(xs: seq<Course>) {
    forall a, b :: 0 <= a < b < |xs| ==> xs[a].title != xs[b].title
  }

  /** Every survivor is the first record of its title, at or after `i`. */
  lemma {:induction false} KeepFirstsSource(xs: seq<Course>, i: nat, n: nat) returns (k: nat)
    requires i <= |xs| && n < |KeepFirsts(xs, i)|
    ensures i <= k < |xs| && xs[k] == KeepFirsts(xs, i)[n] && FirstOfTitle(xs, k)
    decreases |xs| - i
  {
    if FirstOfTitle(xs, i) {
      if n == 0 {
        k := i;
      } else {
        k := KeepFirstsSource(xs, i + 1, n - 1);
      }
    } else {
      k := KeepFirstsSource(xs, i + 1, n);
    }
  }

  lemma {:induction false} KeepFirstsUnique(xs: seq<Course>, i: nat)
    requires i <= |xs|
    ensures UniqueTitles(KeepFirsts(xs, i))
    decreases |xs| - i
  {
    if i < |xs| {
      KeepFirstsUnique(xs, i + 1);
      var rest := KeepFirsts(xs, i + 1);
      if FirstOfTitle(xs, i) {
        forall n | 0 <= n < |rest| ensures rest[n].title != xs[i].title {
          var k := KeepFirstsSource(xs, i + 1, n);
        }
        var r := KeepFirsts(xs, i);
        assert r == [xs[i]] + rest;
        forall a, b | 0 <= a < b < |r| ensures r[a].title != r[b].title {
          if a > 0 {
            assert r[a] == rest[a - 1] && r[b] == rest[b - 1];
          } else {
            assert r[b] == rest[b - 1];
          }
        }
      }
    }
  }

  /** The first record of every title survives. */
  lemma {:induction false} KeepFirstsComplete(xs: seq<Course>, i: nat, k: nat)
    requires i <= k < |xs| && FirstOfTitle(xs, k)
    ensures xs[k] in KeepFirsts(xs, i)
    decreases k - i
  {
    if i < k {
      KeepFirstsComplete(xs, i + 1, k);
    }
  }

  /** De-duplication leaves unique titles, keeps only the first record of each title,
      and loses no title. */
  lemma DedupeCorrect(xs: seq<Course>)
    ensures UniqueTitles(Dedupe(xs))
    ensures forall n :: 0 <= n < |Dedupe(xs)| ==>
      exists k :: 0 <= k < |xs| && xs[k] == Dedupe(xs)[n] && FirstOfTitle(xs, k)
    ensures forall j :: 0 <= j < |xs| ==> exists y :: y in Dedupe(xs) && y.title == xs[j].title
  {
    KeepFirstsUnique(xs, 0);
    forall n | 0 <= n < |Dedupe(xs)|
      ensures exists k :: 0 <= k < |xs| && xs[k] == Dedupe(xs)[n] && FirstOfTitle(xs, k)
    {
      var k := KeepFirstsSource(xs, 0, n);
    }
    forall j | 0 <= j < |xs| ensures exists y :: y in Dedupe(xs) && y.title == xs[j].title {
      var k := FindTitle(xs, xs[j].title, 0);
      assert FirstOfTitle(xs, k);
      KeepFirstsComplete(xs, 0, k);
    }
  }

  // ---- Free courses first: the stable `sort` ----------------------------

  predicate Free(c: Course) { c.isFree }

  predicate Paid(c: Course) { !c.isFree }

  predicate FreeBeforePaid(xs: seq<Course>) {
    forall a, b :: 0 <= a < b < |xs| && xs[b].isFree ==> xs[a].isFree
  }

  /** The stable sort with the comparator that puts free courses before the others:
      the free records in their order, then the rest in theirs. */
  function FreeFirst(xs: seq<Course>): seq<Course> {
    Filter(xs, Free) + Filter(xs, Paid)
  }

  lemma {:induction false} FilterPartition(xs: seq<Course>)
    ensures multiset(Filter(xs, Free)) + multiset(Filter(xs, Paid)) == multiset(xs)
  {
    if xs != [] {
      FilterPartition(xs[1..]);
      var h, t := xs[0], xs[1..];
      assert xs == [h] + t;
      if h.isFree {
        assert Filter(xs, Free) == [h] + Filter(t, Free);
        assert Filter(xs, Paid) == Filter(t, Paid);
      } else {
        assert Filter(xs, Free) == Filter(t, Free);
        assert Filter(xs, Paid) == [h] + Filter(t, Paid);
      }
    }
  }

  lemma {:induction false} FilterKeepsUnique(xs: seq<Course>, p: Course -> bool)
    requires UniqueTitles(xs)
    ensures UniqueTitles(Filter(xs, p))
  {
    if xs != [] {
      var rest := Filter(xs[1..], p);
      FilterKeepsUnique(xs[1..], p);
      if p(xs[0]) {
        var r := Filter(xs, p);
        assert r == [xs[0]] + rest;
        forall n | 0 <= n < |rest| ensures rest[n].title != xs[0].title {
          var k := FilterSource(xs[1..], p, n);
          assert xs[1..][k] == xs[k + 1];
        }
        forall a, b | 0 <= a < b < |r| ensures r[a].title != r[b].title {
          if a > 0 {
            assert r[a] == rest[a - 1] && r[b] == rest[b - 1];
          } else {
            assert r[b] == rest[b - 1];
          }
        }
      }
    }
  }

  /** Moving the free records to the front is a stable sort: a permutation, ordered by
      the comparator, that keeps the order inside each group. */
  lemma FreeFirstIsStableSort(xs: seq<Course>)
    ensures multiset(FreeFirst(xs)) == multiset(xs)
    ensures FreeBeforePaid(FreeFirst(xs))
    ensures Filter(FreeFirst(xs), Free) == Filter(xs, Free)
    ensures Filter(FreeFirst(xs), Paid) == Filter(xs, Paid)
  {
    FilterPartition(xs);
    FreeFirstGroups(xs);
    FreeFirstOrdered(xs);
  }

  lemma FreeFirstOrdered(xs: seq<Course>)
    ensures FreeBeforePaid(FreeFirst(xs))
  {
    var f, p := Filter(xs, Free), Filter(xs, Paid);
    var r := f + p;
    forall a, b | 0 <= a < b < |r| ensures r[b].isFree ==> r[a].isFree {
      if a < |f| {
        assert r[a] == f[a] && r[a] in f;
      } else {
        assert r[b] == p[b - |f|] && r[b] in p;
      }
    }
  }

  lemma FreeFirstGroups(xs: seq<Course>)
    ensures Filter(FreeFirst(xs), Free) == Filter(xs, Free)
    ensures Filter(FreeFirst(xs), Paid) == Filter(xs, Paid)
  {
    var f, p := Filter(xs, Free), Filter(xs, Paid);
    FilterConcat(f, p, Free);
    FilterConcat(f, p, Paid);
    FilterAll(f, Free);
    FilterNone(p, Free);
    FilterAll(p, Paid);
    FilterNone(f, Paid);
    assert f + [] == f && [] + p == p;
  }

  /** The sort keeps titles unique. */
  lemma FreeFirstKeepsUnique(xs: seq<Course>)
    requires UniqueTitles(xs)
    ensures UniqueTitles(FreeFirst(xs))
  {
    var f, p := Filter(xs, Free), Filter(xs, Paid);
    FilterKeepsUnique(xs, Free);
    FilterKeepsUnique(xs, Paid);
    var r := f + p;
    forall a, b | 0 <= a < b < |r| ensures r[a].title != r[b].title {
      if b < |f| {
        assert r[a] == f[a] && r[b] == f[b];
      } else if a >= |f| {
        assert r[a] == p[a - |f|] && r[b] == p[b - |f|];
      } else {
        var ka := FilterSource(xs, Free, a);
        var kb := FilterSource(xs, Paid, b - |f|);
        assert r[a] == f[a] && f[a] in f;
        assert r[b] == p[b - |f|] && p[b - |f|] in p;
        assert r[a] == xs[ka] && r[b] == xs[kb];
        assert ka != kb;
        if ka < kb {
          assert xs[ka].title != xs[kb].title;
        } else {
          assert xs[kb].title != xs[ka].title;
        }
      }
    }
  }

  lemma {:induction false} FilterAll<T>(xs: seq<T>, p: T -> bool)
    requires forall x :: x in xs ==> p(x)
    ensures Filter(xs, p) == xs
  {
    if xs != [] {
      FilterAll(xs[1..], p);
      assert xs == [xs[0]] + xs[1..];
    }
  }

  lemma {:induction false} FilterNone<T>(xs: seq<T>, p: T -> bool)
    requires forall x :: x in xs ==> !p(x)
    ensures Filter(xs, p) == []
  {
    if xs != [] {
      FilterNone(xs[1..], p);
    }
  }

  // ---- The whole generator ------------------------------------------------

  const MaxCourses := 12

  /** `.slice(0, 12)`. */
  function TakeFirst(xs: seq<Course>): (r: seq<Course>)
    ensures |r| == Min(|xs|, MaxCourses) && r == xs[..|r|]
  {
    if |xs| <= MaxCourses then xs else xs[..MaxCourses]
  }

  /** The tail of the chain: de-duplicate, free first, at most twelve. */
  function Shape(candidates: seq<Course>): seq<Course> {
    TakeFirst(FreeFirst(Dedupe(candidates)))
  }

  /** What `generateEnhancedFallbackCourses` returns. */
  function FallbackCourses(skills: seq<string>, jobTitle: string): seq<Course> {
    Shape(Candidates(skills, jobTitle))
  }

  method GenerateEnhancedFallbackCourses(skills: seq<string>, jobTitle: string) returns (r: seq<Course>)
    ensures r == FallbackCourses(skills, jobTitle)
  {
    var courses := BuildCandidates(skills, jobTitle);
    r := TakeFirst(FreeFirst(Dedupe(courses)));
  }

  lemma ShapeUniqueOrdered(c: seq<Course>)
    ensures |Shape(c)| <= MaxCourses
    ensures UniqueTitles(Shape(c)) && FreeBeforePaid(Shape(c))
  {
    var d := Dedupe(c);
    var s := FreeFirst(d);
    var r := TakeFirst(s);
    DedupeCorrect(c);
    FreeFirstIsStableSort(d);
    FreeFirstKeepsUnique(d);
    forall a, b | 0 <= a < b < |r| ensures r[a].title != r[b].title && (r[b].isFree ==> r[a].isFree) {
      assert r[a] == s[a] && r[b] == s[b];
    }
  }

  lemma ShapeProvenance(c: seq<Course>, x: Course)
    requires x in Shape(c)
    ensures exists k :: 0 <= k < |c| && c[k] == x && FirstOfTitle(c, k)
  {
    var d := Dedupe(c);
    var s := FreeFirst(d);
    DedupeCorrect(c);
    FreeFirstIsStableSort(d);
    assert x in s;
    assert x in multiset(s);
    assert x in multiset(d);
    var n :| 0 <= n < |d| && d[n] == x;
  }

  /** The invariants of the result: at most twelve records, unique titles, free ones
      first, and every record the first of its title in the candidate list. */
  lemma FallbackCoursesInvariants(skills: seq<string>, jobTitle: string)
    ensures |FallbackCourses(skills, jobTitle)| <= MaxCourses
    ensures UniqueTitles(FallbackCourses(skills, jobTitle))
    ensures FreeBeforePaid(FallbackCourses(skills, jobTitle))
    ensures forall x :: x in FallbackCourses(skills, jobTitle) ==>
      exists k :: 0 <= k < |Candidates(skills, jobTitle)| && Candidates(skills, jobTitle)[k] == x && FirstOfTitle(Candidates(skills, jobTitle), k)
  {
    var c := Candidates(skills, jobTitle);
    ShapeUniqueOrdered(c);
    forall x | x in Shape(c)
      ensures exists k :: 0 <= k < |c| && c[k] == x && FirstOfTitle(c, k)
    {
      ShapeProvenance(c, x);
    }
  }

  /** A job-specific entry of a key the lower-cased title contains. */
  predicate FromJob(x: Course, jobTitle: string) {
    exists j :: 0 <= j < |JobKeys| && x in JobTable(JobKeys[j]) && Contains(Lower(jobTitle), JobKeys[j])
  }

  /** What one of the skills brings: its table entry, directly or through its
      synonym key, or its generic record. */
  predicate FromSkill(x: Course, skills: seq<string>) {
    exists s :: s in skills && (x in Table(Lower(s)) || x in Table(Normalize(Lower(s))) || x == Generic(s))
  }

  /** Where a candidate comes from. */
  predicate FromTables(x: Course, skills: seq<string>, jobTitle: string) {
    FromJob(x, jobTitle) || FromSkill(x, skills)
  }

  lemma {:induction false} JobCoursesSource(titleLower: string, k: nat, x: Course)
    requires k <= |JobKeys| && x in JobCoursesUpTo(titleLower, k)
    ensures exists j :: 0 <= j < k && x in JobTable(JobKeys[j]) && Contains(titleLower, JobKeys[j])
  {
    if k > 0 && x !in JobCoursesUpTo(titleLower, k - 1) {
      assert x in JobTable(JobKeys[k - 1]);
    } else if k > 0 {
      JobCoursesSource(titleLower, k - 1, x);
    }
  }

  lemma {:induction false} SkillsCoursesSource(skills: seq<string>, x: Course)
    requires x in SkillsCourses(skills)
    ensures FromSkill(x, skills)
  {
    var init, last := skills[..|skills| - 1], skills[|skills| - 1];
    assert SkillsCourses(skills) == SkillsCourses(init) + SkillCourses(last);
    if x in SkillsCourses(init) {
      SkillsCoursesSource(init, x);
      var s :| s in init && (x in Table(Lower(s)) || x in Table(Normalize(Lower(s))) || x == Generic(s));
      assert s in skills;
    } else {
      assert last in skills;
    }
  }

  /** Nothing is invented: every record of the result is a job entry of a key the
      lower-cased title contains, or the table entry of a given skill (directly or
      through its synonym key), or a given skill's generic record. */
  lemma FallbackCoursesProvenance(skills: seq<string>, jobTitle: string, x: Course)
    requires x in FallbackCourses(skills, jobTitle)
    ensures x in Candidates(skills, jobTitle)
    ensures FromTables(x, skills, jobTitle)
  {
    FallbackCoursesInvariants(skills, jobTitle);
    var c := Candidates(skills, jobTitle);
    if x in JobCourses(jobTitle) {
      JobCoursesSource(Lower(jobTitle), |JobKeys|, x);
    } else {
      SkillsCoursesSource(skills, x);
    }
  }

  /** No skills and no known job key: nothing to recommend. */
  lemma NoFallbackWithoutSources(jobTitle: string)
    requires forall k :: 0 <= k < |JobKeys| ==> !Contains(Lower(jobTitle), JobKeys[k])
    ensures FallbackCourses([], jobTitle) == []
  {
    var t := Lower(jobTitle);
    assert JobCoursesUpTo(t, 1) == [];
    assert JobCoursesUpTo(t, 2) == [];
    assert JobCoursesUpTo(t, 3) == [];
    assert Candidates([], jobTitle) == [];
    assert Dedupe([]) == [];
  }

  // ---- The worked example: a software engineer missing JavaScript ------------

  /** The first record with title `t` is at `k`. */
  lemma FindTitleAt(xs: seq<Course>, t: string, k: nat)
    requires k < |xs| && xs[k].title == t && forall j :: 0 <= j < k ==> xs[j].title != t
    ensures FindTitle(xs, t, 0) == k
  {
  }

  /** A list whose fourth and fifth records repeat its second and third loses the repeats. */
  lemma {:induction false} DedupeOfRepeatedPair(a: Course, b: Course, c: Course, d: Course)
    requires a.title != b.title && a.title != c.title && a.title != d.title
    requires b.title != c.title && b.title != d.title && c.title != d.title
    ensures Dedupe([a, b, c, b, c, d]) == [a, b, c, d]
  {
    var xs := [a, b, c, b, c, d];
    FindTitleAt(xs, a.title, 0);
    FindTitleAt(xs, b.title, 1);
    FindTitleAt(xs, c.title, 2);
    FindTitleAt(xs, d.title, 5);
    assert FirstOfTitle(xs, 0) && FirstOfTitle(xs, 1) && FirstOfTitle(xs, 2) && FirstOfTitle(xs, 5);
    assert !FirstOfTitle(xs, 3) && !FirstOfTitle(xs, 4);
    assert KeepFirsts(xs, 6) == [];
    assert KeepFirsts(xs, 5) == [d];
    assert KeepFirsts(xs, 4) == [d];
    assert KeepFirsts(xs, 3) == [d];
    assert KeepFirsts(xs, 2) == [c] + [d];
    assert KeepFirsts(xs, 1) == [b] + [c, d];
    assert KeepFirsts(xs, 0) == [a] + [b, c, d];
  }

  lemma FreeOfOrdered(a: Course, b: Course, c: Course, d: Course)
    requires a.isFree && b.isFree && c.isFree && !d.isFree
    ensures Filter([a, b, c, d], Free) == [a, b, c]
  {
    assert [a, b, c, d] == [a, b, c] + [d];
    FilterConcat([a, b, c], [d], Free);
    FilterAll([a, b, c], Free);
    FilterSingleton(d, Free);
  }

  lemma PaidOfOrdered(a: Course, b: Course, c: Course, d: Course)
    requires a.isFree && b.isFree && c.isFree && !d.isFree
    ensures Filter([a, b, c, d], Paid) == [d]
  {
    assert [a, b, c, d] == [a, b, c] + [d];
    FilterConcat([a, b, c], [d], Paid);
    FilterNone([a, b, c], Paid);
    FilterSingleton(d, Paid);
  }

  /** Three free records and then a paid one are already in order. */
  lemma FreeFirstOfOrdered(a: Course, b: Course, c: Course, d: Course)
    requires a.isFree && b.isFree && c.isFree && !d.isFree
    ensures FreeFirst([a, b, c, d]) == [a, b, c, d]
  {
    FreeOfOrdered(a, b, c, d);
    PaidOfOrdered(a, b, c, d);
  }

  /** With the repeats gone, the one paid record goes last. */
  lemma ShapeOfRepeatedPair(a: Course, b: Course, c: Course, d: Course)
    requires a.title != b.title && a.title != c.title && a.title != d.title
    requires b.title != c.title && b.title != d.title && c.title != d.title
    requires a.isFree && b.isFree && c.isFree && !d.isFree
    ensures Shape([a, b, c, b, c, d]) == [a, b, c, d]
  {
    DedupeOfRepeatedPair(a, b, c, d);
    FreeFirstOfOrdered(a, b, c, d);
  }

  /** No character of `s` begins `lit`, so `s` does not contain it. */
  lemma NoFirstChar(s: string, lit: string)
    requires lit != [] && forall i :: 0 <= i < |s| ==> s[i] != lit[0]
    ensures !Contains(s, lit)
  {
    forall i: nat | i <= |s| ensures !StartsAt(s, i, lit) {
      if i + |lit| <= |s| {
        assert s[i] != lit[0];
      }
    }
  }

  lemma LowerOfLowercase(s: string)
    requires forall i :: 0 <= i < |s| ==> !('A' <= s[i] <= 'Z')
    ensures Lower(s) == s
  {
  }

  const ExampleTitle := "software engineer"

  lemma ExampleTitleLower()
    ensures Lower("Software Engineer") == ExampleTitle
  {
    var l := Lower("Software Engineer");
    assert l[0] == 's' && l[9] == 'e';
    forall i | 0 <= i < |l| ensures l[i] == ExampleTitle[i] {
    }
  }

  lemma ExampleJobCourses()
    ensures JobCourses("Software Engineer") == JobTable("software engineer")
  {
    ExampleTitleLower();
    var t := ExampleTitle;
    assert StartsAt(t, 0, JobKeys[0]);
    NoFirstChar(t, JobKeys[1]);
    NoFirstChar(t, JobKeys[2]);
    JobCoursesStep(t, 0);
    JobCoursesStep(t, 1);
    JobCoursesStep(t, 2);
  }

  lemma ExampleSkillKey()
    ensures Lower("javascript") == "javascript" && Normalize("javascript") == "javascript"
  {
    LowerOfLowercase("javascript");
  }

  lemma ExampleSkillCourses()
    ensures SkillsCourses(["javascript"]) == Table("javascript") + Table("javascript") + [Generic("javascript")]
  {
    ExampleSkillKey();
    assert ["javascript"][..0] == [];
  }

  lemma ExampleCandidates()
    ensures Candidates(["javascript"], "Software Engineer") ==
      JobTable("software engineer") + Table("javascript") + Table("javascript") + [Generic("javascript")]
  {
    ExampleJobCourses();
    ExampleSkillCourses();
  }

  lemma ExampleCandidatesListed()
    ensures JobTable("software engineer") + Table("javascript") + Table("javascript") + [Generic("javascript")] ==
      [FullStackWebDevelopment, JavaScriptFundamentals, ModernJavaScript,
       JavaScriptFundamentals, ModernJavaScript, Generic("javascript")]
  {
  }

  lemma ExampleRecords()
    ensures FullStackWebDevelopment.title == "Full Stack Web Development" && FullStackWebDevelopment.isFree
    ensures JavaScriptFundamentals.title == "JavaScript Fundamentals - FreeCodeCamp" && JavaScriptFundamentals.isFree
    ensures ModernJavaScript.title == "Modern JavaScript Course" && ModernJavaScript.isFree
    ensures Generic("javascript").title == "javascript Complete Guide" && !Generic("javascript").isFree
  {
  }

  lemma ExampleTitlesDistinct()
    ensures var a, b, c, d := "Full Stack Web Development", "JavaScript Fundamentals - FreeCodeCamp",
      "Modern JavaScript Course", "javascript Complete Guide";
      a != b && a != c && a != d && b != c && b != d && c != d
  {
    var a, b, c, d := "Full Stack Web Development", "JavaScript Fundamentals - FreeCodeCamp",
      "Modern JavaScript Course", "javascript Complete Guide";
    assert a[0] == 'F' && b[0] == 'J' && c[0] == 'M' && d[0] == 'j';
  }

  /** The job record, the two JavaScript records once each, then the paid generic record. */
  lemma SoftwareEngineerExample()
    ensures var r := FallbackCourses(["javascript"], "Software Engineer");
      r == [FullStackWebDevelopment, JavaScriptFundamentals, ModernJavaScript, Generic("javascript")] &&
      r[0].title == "Full Stack Web Development" && r[1].title == "JavaScript Fundamentals - FreeCodeCamp" &&
      r[2].title == "Modern JavaScript Course" && r[3].title == "javascript Complete Guide"
  {
    ExampleCandidates();
    ExampleCandidatesListed();
    ExampleRecords();
    ExampleTitlesDistinct();
    ShapeOfRepeatedPair(FullStackWebDevelopment, JavaScriptFundamentals, ModernJavaScript, Generic("javascript"));
  }

  // ---- The backend address: `getApiBaseUrl` -------------------------------

  /** `apiUrls.find((url) => url && url.trim() !== "")`: an unset variable is `None`. */
  function FirstConfigured(urls: seq<Option<string>>): (r: Option<string>)
    ensures r.Some? ==> r in urls && Configured(r)
    ensures r.None? <==> forall i :: 0 <= i < |urls| ==> !Configured(urls[i])
  {
    if urls == [] then None
    else if Configured(urls[0]) then urls[0]
    else
      assert forall i :: 0 < i < |urls| ==> urls[i] == urls[1..][i - 1];
      FirstConfigured(urls[1..])
  }

  /** The variable found is the first configured one. */
  lemma {:induction false} FirstConfiguredIs(urls: seq<Option<string>>, i: nat)
    requires i < |urls| && Configured(urls[i])
    requires forall j :: 0 <= j < i ==> !Configured(urls[j])
    ensures FirstConfigured(urls) == urls[i]
  {
    if i > 0 {
      assert !Configured(urls[0]);
      assert forall j :: 0 <= j < i - 1 ==> urls[1..][j] == urls[j + 1];
      FirstConfiguredIs(urls[1..], i - 1);
    }
  }

  /** A variable that is set and not blank. */
  predicate Configured(u: Option<string>) { u.Some? && Trim(u.value) != "" }

  /** The address: the first configured variable of the three, as given and not trimmed;
      otherwise, in a browser, the local development server when the page is served from
      `localhost` or `127.0.0.1`, and otherwise the empty string. `hostname` is `None`
      when there is no `window`. */
  function ApiBaseUrl(baseUrl: Option<string>, backendApi: Option<string>, devApiUrl: Option<string>, hostname: Option<string>): string {
    match FirstConfigured([baseUrl, backendApi, devApiUrl])
    case Some(u) => u
    case None =>
      if hostname.Some? && (hostname.value == "localhost" || hostname.value == "127.0.0.1") then "http://localhost:8000" else ""
  }

  /** The priority order of the three variables and the fallbacks, case by case. */
  lemma ApiBaseUrlChoice(baseUrl: Option<string>, backendApi: Option<string>, devApiUrl: Option<string>, hostname: Option<string>)
    ensures Configured(baseUrl) ==> ApiBaseUrl(baseUrl, backendApi, devApiUrl, hostname) == baseUrl.value
    ensures !Configured(baseUrl) && Configured(backendApi) ==>
      ApiBaseUrl(baseUrl, backendApi, devApiUrl, hostname) == backendApi.value
    ensures !Configured(baseUrl) && !Configured(backendApi) && Configured(devApiUrl) ==>
      ApiBaseUrl(baseUrl, backendApi, devApiUrl, hostname) == devApiUrl.value
    ensures !Configured(baseUrl) && !Configured(backendApi) && !Configured(devApiUrl) ==>
      ApiBaseUrl(baseUrl, backendApi, devApiUrl, hostname) ==
        if hostname == Some("localhost") || hostname == Some("127.0.0.1") then "http://localhost:8000" else ""
  {
    var urls := [baseUrl, backendApi, devApiUrl];
    assert urls[1..] == [backendApi, devApiUrl];
    assert urls[1..][1..] == [devApiUrl];
    assert urls[1..][1..][1..] == [];
    if !Configured(baseUrl) {
      assert FirstConfigured(urls) == FirstConfigured([backendApi, devApiUrl]);
      if !Configured(backendApi) {
        assert FirstConfigured([backendApi, devApiUrl]) == FirstConfigured([devApiUrl]);
        if !Configured(devApiUrl) {
          assert FirstConfigured([devApiUrl]) == FirstConfigured([]);
        }
      }
    }
  }
}
