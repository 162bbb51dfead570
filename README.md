# skillUp, modelled in Dafny

skillUp compares a resume with a job title. The front end sends the resume to a
FastAPI back end, which asks a language model for the missing skills, job matches and
project ideas. It also searches Coursera, Udemy and YouTube for courses. The results
page then turns the model's free text into lists and records.

This project models the deterministic core of that system:

- **Text parsers of the results page** (`Text`, `Patterns`, `SkillsParser`, `ResultsFormat`):
  - The skill-list parser tries three strategies, bullets, then sentences, then lines.
  - The job and project formatters split the text on `<digits>. `. They read the
    labelled fields with explicit scans that stand for the regular expressions. They
    put in placeholders for missing fields and cut long fields to their caps.
- **The home page's formatters** (`HomeFormat`), with a defect in the project
  title (see Findings).
- **The client-side course fallback and the choice of the back-end address** (`Api`):
  - The fallback pushes table entries in two loops. It then drops repeated titles,
    moves free courses first and keeps at most twelve.
  - The address is the first configured of three variables, else localhost or the
    empty string.
- **The error helpers** (`ErrorHandler`): the status-to-message table, the `APIError`
  record and the retry loop with doubling waits.
- **How the back end shapes results around its outside calls** (`Backend`):
  - Course results are filtered by site, with sample courses as the fallback.
  - YouTube results are filtered to videos.
  - The text of the model's first candidate is extracted.
  - Resume text is cut to 3000 characters.
- **The results page as a state machine** (`ResultsPage`). A class has one method per
  request outcome and a retry, and a status is derived for each section.
- **The home page's submit handler** (`HomePage`). Five requests run in sequence and
  the first failure aborts the rest. The class has a method per input event and the
  "New Analysis" reset.

Every outside call is an input to the model: its parsed body, or how it failed.

Conventions:
- Strings are sequences of Unicode scalar values.
- `Text.IsSpace` is the ECMAScript white-space and line-terminator set, which `\s`
  and `trim` use.
- Each regular expression is a scan that shows where a backtracking matcher
  would match and where its greedy and lazy parts stop (`Patterns`).

## Model

| member | source | states |
|---|---|---|
| Text.TrimStart | frontend/src/components/Resuts.jsx:105 | the result is a suffix of the input, everything dropped is white space, and it does not start with white space |
| Text.TrimEnd | frontend/src/components/Resuts.jsx:105 | the result is a prefix of the input, everything dropped is white space, and it does not end with white space |
| Text.Trim | frontend/src/components/Resuts.jsx:105 | `trim` keeps only characters of the input, is no longer than it, and has no white space at either end |
| Text.TrimEmptyIffBlank | frontend/src/components/Resuts.jsx:143 | a string trims to empty exactly when it is all white space (the `skill.trim() !== ""` test) |
| Text.TrimOfBlankPrefix | frontend/src/components/Resuts.jsx:104-105 | white space in front of a string does not change its trim |
| Text.TrimIsSlice | frontend/src/components/Resuts.jsx:105 | the trim is a contiguous slice of the input |
| Text.TrimOfPadded | frontend/src/components/Resuts.jsx:116 | a word with no white space at its ends, padded with white space, trims to itself |
| Text.Lower | frontend/src/utils/api.js:250 | `toLowerCase` keeps the length and maps each character on its own, ASCII only |
| Text.FirstFrom | frontend/src/components/Resuts.jsx:103 | the first index with the property in a range, or the end when there is none |
| Text.FirstFromIs | frontend/src/components/Resuts.jsx:103 | any index that is the first with the property is the one found |
| Text.SpaceEnd | frontend/src/components/Resuts.jsx:115 | a greedy `\s*` stops at the first non-space character |
| Text.IndexOf | frontend/src/components/Resuts.jsx:250 | the first occurrence of a character from a position, or the end |
| Text.Split | frontend/src/components/Resuts.jsx:129 | `split` on a class of characters gives at least one piece, and no piece holds a separator |
| Text.SplitJoin | frontend/src/components/Resuts.jsx:129 | splitting text that has a separator in it gives the pieces of the left part followed by those of the right |
| Text.SplitNoSeparator | frontend/src/components/Resuts.jsx:142 | text without a separator splits into itself |
| Text.SplitKeepsNonSeparator | frontend/src/components/Resuts.jsx:142 | every non-separator character lands in some piece |
| Text.Filter | frontend/src/components/Resuts.jsx:117 | `filter` keeps exactly the elements that satisfy the test: nothing is invented and nothing that passes is lost |
| Text.FilterSource | frontend/src/components/Resuts.jsx:117 | each survivor of a filter is some element of the input |
| Text.FilterConcat | frontend/src/components/Resuts.jsx:117 | filtering distributes over concatenation, so order is kept |
| Text.Map | frontend/src/components/Resuts.jsx:116 | `map` keeps the length and applies the function at each position |
| Text.MapConcat | frontend/src/components/Resuts.jsx:116 | mapping distributes over concatenation |
| Text.RemoveDoubleStars | frontend/src/components/Resuts.jsx:251 | the global `**` removal never lengthens the text and leaves text without a star unchanged; its value is fixed by RemoveDoubleStarsWithoutPair and RemoveDoubleStarsAt |
| Text.RemoveDoubleStarsComplete | frontend/src/components/Resuts.jsx:251 | no `**` is left after the global replacement |
| Text.RemoveDoubleStarsKeepsOthers | frontend/src/components/Resuts.jsx:251 | only stars are removed: the characters other than `*` are all kept, in their order |
| Text.RemoveDoubleStarsWithoutPair | frontend/src/components/Resuts.jsx:251 | text with no `**` in it is unchanged, so a lone `*` is kept |
| Text.RemoveDoubleStarsFrom | frontend/src/components/Resuts.jsx:251 | from any position up to the next `**`, the scan keeps the text, drops that pair and resumes after it |
| Text.RemoveDoubleStarsAt | frontend/src/components/Resuts.jsx:251 | the leftmost `**` goes, the text before it is kept, and the replacement goes on after it |
| Text.NatToString | frontend/src/components/Resuts.jsx:276 | the decimal rendering of a number is non-empty, made of digits and without a leading zero |
| Text.NatToStringValue | frontend/src/components/Resuts.jsx:276 | the digits read back as the number, so `Job Recommendation N` carries N |
| Text.Truncate | frontend/src/components/Resuts.jsx:278-285 | a value longer than the cap becomes its first cap characters followed by `...`; any other value is unchanged |
| Patterns.DigitEnd | frontend/src/components/Resuts.jsx:241 | a greedy `\d+` stops at the first non-digit |
| Patterns.NumberedAt | frontend/src/components/Resuts.jsx:241 | a separator match at a position ends strictly after it |
| Patterns.SplitFrom | frontend/src/components/Resuts.jsx:241 | the scan of `split`: it always yields at least one chunk (SplitFromSkips, SplitFromNext, SplitFromLast fix the chunks) |
| Patterns.SplitNumbered | frontend/src/components/Resuts.jsx:241 | `split(/\d+\.\s+/)` gives at least one chunk |
| Patterns.SplitFromSkips | frontend/src/components/Resuts.jsx:241 | the split scan passes over positions where no separator matches |
| Patterns.SplitFromNext | frontend/src/components/Resuts.jsx:241 | a chunk runs up to the next separator match and the scan resumes after it |
| Patterns.SplitFromLast | frontend/src/components/Resuts.jsx:241 | with no further separator, the rest of the text is the last chunk |
| Patterns.Sections | frontend/src/components/Resuts.jsx:240-242 | every chunk kept has text after trimming |
| Patterns.SectionsOfEmpty | frontend/src/components/Resuts.jsx:238-242 | empty text has no chunks |
| Patterns.BoldLabelEnd | frontend/src/components/Resuts.jsx:255 | a match of the bold label at a position ends after it |
| Patterns.StarsAt | frontend/src/components/Resuts.jsx:255 | the `\*\s*\*\*` (or `\*\s+\*\*`) lookahead at a position |
| Patterns.BoldField | frontend/src/components/Resuts.jsx:254-256 | the bold-label pattern fails exactly when the label matches nowhere |
| Patterns.BoldFieldIs | frontend/src/components/Resuts.jsx:254-256 | the group is taken at the leftmost match and runs to the first place where the lookahead holds |
| Patterns.PlainLabelEnd | frontend/src/components/Resuts.jsx:315 | the group starts after the label and its white space |
| Patterns.StopAt | frontend/src/components/Resuts.jsx:315 | the `(?=\s*Next)` lookahead at a position |
| Patterns.PlainField | frontend/src/components/Resuts.jsx:314-316 | the plain-label pattern fails exactly when its label occurs nowhere |
| Patterns.PlainFieldIs | frontend/src/components/Resuts.jsx:314-316 | the group is taken at the leftmost label and runs to the first place where the lookahead holds |
| Patterns.PlainFieldToEnd | frontend/src/components/Resuts.jsx:335 | with no lookahead, the group runs to the end of the chunk |
| Patterns.LastNonNewline | frontend/src/components/Resuts.jsx:298 | the last position that is not a line feed, with only line feeds after it |
| Patterns.LabelLineStart | frontend/src/components/Resuts.jsx:298 | `([^\n]+)` starts after the label, on a character that is not a line feed |
| Patterns.LabelLine | frontend/src/components/Resuts.jsx:298 | `Label\s*([^\n]+)` fails exactly when no position matches; a match is non-empty and has no line feed |
| Patterns.FieldOr | frontend/src/components/Resuts.jsx:257-259 | a missing group gives the placeholder and a found one gives its trimmed text |
| SkillsParser.RemoveHeader | frontend/src/components/Resuts.jsx:103 | either nothing or exactly the header's length is removed |
| SkillsParser.RemoveHeaderAbsent | frontend/src/components/Resuts.jsx:103 | text without a case-insensitive `Missing Skills:` is unchanged |
| SkillsParser.RemoveHeaderAt | frontend/src/components/Resuts.jsx:103 | the header goes at its first case-insensitive occurrence, and the text on both sides is kept |
| SkillsParser.LastNewlineBefore | frontend/src/components/Resuts.jsx:104 | the last line feed before a position, if there is one |
| SkillsParser.StripLeadingBlankLine | frontend/src/components/Resuts.jsx:104 | `/^\s*\n/` removes the leading white space up to and including its last line break; the trim is unaffected (TrimOfStrippedBlankLine) |
| SkillsParser.Clean | frontend/src/components/Resuts.jsx:102-105 | the cleaning chain in source order: header, leading blank line, trim; equal to the trimmed header-free text (CleanIsTrimmedWithoutHeader) |
| SkillsParser.TrimOfStrippedBlankLine | frontend/src/components/Resuts.jsx:104-105 | removing a leading blank line does not change the trimmed text |
| SkillsParser.CleanIsTrimmedWithoutHeader | frontend/src/components/Resuts.jsx:102-105 | the cleaned text is the header-free text, trimmed |
| SkillsParser.CutColonTail | frontend/src/components/Resuts.jsx:120 | removing the `: …` tail leaves a prefix of the item |
| SkillsParser.CutColonTailAt | frontend/src/components/Resuts.jsx:120 | the cut is at the first colon after which, past the white space, no line terminator follows; without such a colon the item is unchanged |
| SkillsParser.CutColonTailWithoutColon | frontend/src/components/Resuts.jsx:120 | an item without a colon is unchanged |
| SkillsParser.DropFinalDot | frontend/src/components/Resuts.jsx:121 | exactly one character goes, and only when the item ends with a full stop; otherwise the item is unchanged |
| SkillsParser.LeadingPhrase | frontend/src/components/Resuts.jsx:133-134 | the phrase is no longer than the item and uses only its characters; its value is fixed by LeadingPhraseAt and LeadingPhraseCut |
| SkillsParser.LeadingPhraseCut | frontend/src/components/Resuts.jsx:133-134 | unless the item starts with `(` or `:` (no match, item kept trimmed), the phrase holds neither; an item with neither is kept whole, trimmed |
| SkillsParser.LeadingPhraseAt | frontend/src/components/Resuts.jsx:133-134 | for an item that does not start with `(` or `:`, the phrase is the trimmed run before the first of them, or the whole item trimmed when it has neither |
| SkillsParser.BulletItem | frontend/src/components/Resuts.jsx:118-123 | one bullet segment with its explanation and final full stop removed, trimmed; non-empty results are trimmed and marker-free (BulletItemShape) |
| SkillsParser.BulletItems | frontend/src/components/Resuts.jsx:114-124 | the bullet stage in source order: split on the markers, trim, drop empties, clean each item, drop empties (BulletItemsShape, BulletItemsAcrossMarker) |
| SkillsParser.SentenceItems | frontend/src/components/Resuts.jsx:127-137 | the sentence stage: split on `.` and line breaks, keep pieces of 1 to 99 characters, take each leading phrase (SentenceItemsShape) |
| SkillsParser.StripDash | frontend/src/components/Resuts.jsx:144 | a leading dash and the white space after it go |
| SkillsParser.LineItems | frontend/src/components/Resuts.jsx:139-144 | the line stage: non-blank lines, each without its leading dash, trimmed (LineItemsShape, LineItemsNonEmpty) |
| SkillsParser.Stages | frontend/src/components/Resuts.jsx:109-144 | the three stages in order on the cleaned text (StageOrder, StagesOfText) |
| SkillsParser.ParseSkillsResponse | frontend/src/components/Resuts.jsx:99-145 | no response or an empty one gives no skills, anything else the stages on the cleaned text (ParseEmptyIffCleanEmpty, DashListExample) |
| SkillsParser.ParseSkills | frontend/src/components/Resuts.jsx:83 | the handler's call returns the parse of the field |
| SkillsParser.BulletItemsShape | frontend/src/components/Resuts.jsx:114-124 | every bullet-stage item is non-empty, trimmed and free of marker characters |
| SkillsParser.BulletItemsAcrossMarker | frontend/src/components/Resuts.jsx:114-124 | source order is kept: the items on the left of a marker come first, followed by those on the right |
| SkillsParser.TwoDashItems | frontend/src/components/Resuts.jsx:114-124 | a dash list of two plain words yields those two words, in order |
| SkillsParser.SentenceItemsShape | frontend/src/components/Resuts.jsx:128-136 | every sentence-stage item has 1 to 99 characters and holds no full stop or line break |
| SkillsParser.LineItemsShape | frontend/src/components/Resuts.jsx:141-144 | every line-stage item lies on one line and has no white space at either end |
| SkillsParser.LineItemsNonEmpty | frontend/src/components/Resuts.jsx:139-144 | a non-empty cleaned text always yields at least one line item |
| SkillsParser.StageOrder | frontend/src/components/Resuts.jsx:109-144 | the bullet stage wins when it finds something, the sentence stage runs only when it does not, and the line stage runs only when both find nothing |
| SkillsParser.StagesOfText | frontend/src/components/Resuts.jsx:127-144 | some stage always yields an item for a non-empty cleaned text |
| SkillsParser.ParseEmptyIffCleanEmpty | frontend/src/components/Resuts.jsx:99-145 | the parser returns no skills exactly when the cleaned text is empty |
| SkillsParser.DashListExample | frontend/src/components/Resuts.jsx:99-145 | `"Missing Skills:\n- Python\n- SQL\n"` parses to `["Python", "SQL"]` |
| ResultsFormat.BoldTitle | frontend/src/components/Resuts.jsx:246 | a bold heading is a non-empty run without stars |
| ResultsFormat.FirstLine | frontend/src/components/Resuts.jsx:250 | the first line is a prefix with no line feed that ends at the first line feed |
| ResultsFormat.JobTitleText | frontend/src/components/Resuts.jsx:245-252 | the bold heading, or else the first line without `**`, trimmed (BoldHeadingIsTitle) |
| ResultsFormat.BoldHeadingIsTitle | frontend/src/components/Resuts.jsx:246-248 | a section that starts with `**title**` takes the trimmed title |
| ResultsFormat.JobFromSection | frontend/src/components/Resuts.jsx:244-286 | the title is never empty and falls back to `Job Recommendation N` (1-based); each missing field has its placeholder; each found field is trimmed and cut to 300/200/200 |
| ResultsFormat.FormatJobRecommendations | frontend/src/components/Resuts.jsx:237-288 | one record per non-blank numbered chunk, in text order, each built with its 0-based index |
| ResultsFormat.NoJobsWithoutText | frontend/src/components/Resuts.jsx:238 | no text gives no records |
| ResultsFormat.ProjectTitleText | frontend/src/components/Resuts.jsx:297-306 | the trimmed rest of the `Project Title:` line; without the label, the trimmed first line unless the chunk starts with a line break; otherwise `Creative Project N` |
| ResultsFormat.RemoveTitleLabel | frontend/src/components/Resuts.jsx:310 | the label removal never lengthens the title and leaves a title without the label unchanged |
| ResultsFormat.RemoveTitleLabelAt | frontend/src/components/Resuts.jsx:310 | with the label present, its first case-insensitive occurrence and the white space after it go, and the rest is kept |
| ResultsFormat.CutDescriptionTail | frontend/src/components/Resuts.jsx:311 | the tail cut leaves a prefix, and the title is unchanged exactly when no description tail matches |
| ResultsFormat.CutDescriptionTailAt | frontend/src/components/Resuts.jsx:311 | the cut is at the leftmost position where `\s*Description:.*$` matches, case-insensitively |
| ResultsFormat.CleanTitle | frontend/src/components/Resuts.jsx:308-312 | the cleaning chain in source order: `**`, the label, a description tail, trim |
| ResultsFormat.Difficulty | frontend/src/components/Resuts.jsx:335-350 | the difficulty is the trimmed text after its label, or `Intermediate` when the label is missing or the text is longer than 20 characters |
| ResultsFormat.ProjectFromSection | frontend/src/components/Resuts.jsx:296-352 | the title is cleaned of `**`, the label and a description tail, then cut to 80; fields are cut to 250/150/150; missing fields have their placeholders |
| ResultsFormat.FormatProjectIdeas | frontend/src/components/Resuts.jsx:290-353 | one record per non-blank numbered chunk, in text order |
| ResultsFormat.NoProjectsWithoutText | frontend/src/components/Resuts.jsx:291 | no text gives no records |
| HomeFormat.LeadingNonStars | frontend/src/components/Home.jsx:139 | `^([^*]+)` fails exactly on an empty chunk or one that starts with a star; a match is the non-empty prefix up to the first star |
| HomeFormat.JobFromSection | frontend/src/components/Home.jsx:137-166 | the title is the trimmed text before the first star, or `Job Title`; missing fields are empty and found ones are trimmed, never cut |
| HomeFormat.FormatJobRecommendations | frontend/src/components/Home.jsx:128-167 | one record per non-blank numbered chunk, in text order |
| HomeFormat.NoJobsWithoutText | frontend/src/components/Home.jsx:129 | no text gives no records |
| HomeFormat.TitleBeforeStar | frontend/src/components/Home.jsx:139-140 | the job title is everything before the first star, trimmed |
| HomeFormat.BoldHeadingOnBothPages | frontend/src/components/Home.jsx:139-140 | a bold heading gives `Job Title` on the home page but the heading itself on the results page |
| HomeFormat.ProjectFromSection | frontend/src/components/Home.jsx:177-211 | each field is its label's trimmed text or empty; the title falls back to `Project` and the difficulty to `Intermediate` |
| HomeFormat.FormatProjectIdeas | frontend/src/components/Home.jsx:170-212 | one record per non-blank chunk between `<digits>. Project Title:` separators |
| HomeFormat.NoProjectsWithoutText | frontend/src/components/Home.jsx:171 | no text gives no records |
| HomeFormat.TitleWithoutLabel | frontend/src/components/Home.jsx:179-182 | a chunk without `Project Title:` gets the title `Project` |
| HomeFormat.OneNumberedProject | frontend/src/components/Home.jsx:173 | the split swallows the label together with the number |
| HomeFormat.ExampleSections | frontend/src/components/Home.jsx:173-176 | a one-project answer gives exactly one chunk, without its label |
| HomeFormat.TitleLostBySplit | frontend/src/components/Home.jsx:173-182 | as written, a well-formed one-project answer gets the placeholder title `Project` |
| HomeFormat.LeadingTitle | frontend/src/components/Home.jsx:179-180 | the corrected title is no longer than the chunk |
| HomeFormat.ProjectFromSectionFixed | frontend/src/components/Home.jsx:177-211 | the corrected record reads the title from the chunk start and agrees with the original on every other field |
| HomeFormat.FormatProjectIdeasFixed | frontend/src/components/Home.jsx:170-212 | one corrected record per non-blank chunk, in text order |
| HomeFormat.LeadingTitleOfLabelledLine | frontend/src/components/Home.jsx:179-180 | the corrected title is the text on the label's line, up to the description, for any trimmed title without `Description:` in it |
| HomeFormat.NoStopInTitle | frontend/src/components/Home.jsx:179-180 | the description lookahead does not hold anywhere inside such a title |
| HomeFormat.TitleKeptFromChunkStart | frontend/src/components/Home.jsx:173-182 | with the correction, the same answer keeps its title `Chat` |
| Api.Generic | frontend/src/utils/api.js:314-322 | the per-skill record is a paid Udemy search on that skill |
| Api.Table | frontend/src/utils/api.js:108-144 | the entries of `javascript` and `python`; any other key has none |
| Api.JobTable | frontend/src/utils/api.js:253-281 | the entry of each of the three job keys; any other key has none |
| Api.Normalize | frontend/src/utils/api.js:300-308 | the synonym of a listed key, else the key itself |
| Api.JobCoursesUpTo | frontend/src/utils/api.js:284-288 | the job courses of the first k keys (JobCoursesStep, JobCoursesSource) |
| Api.JobCourses | frontend/src/utils/api.js:284-288 | the job courses of every key the lower-cased title contains, in key order (PushJobCourses) |
| Api.SkillCourses | frontend/src/utils/api.js:292-322 | one skill's direct entry, synonym entry and generic record (PushSkillCourses) |
| Api.SkillsCourses | frontend/src/utils/api.js:291-323 | every skill's courses, in skill order (SkillsCoursesStep, SkillsCoursesSource) |
| Api.Candidates | frontend/src/utils/api.js:283-323 | job courses first, then the skills' courses (BuildCandidates) |
| Api.JobCoursesStep | frontend/src/utils/api.js:284-288 | each job key adds its courses after those of the keys before it, and only when the title contains the key |
| Api.SkillsCoursesStep | frontend/src/utils/api.js:291-323 | each skill adds its courses after those of the skills before it |
| Api.PushJobCourses | frontend/src/utils/api.js:284-288 | the first loop pushes the courses of every job key the lower-cased title contains, in key order |
| Api.PushSkillCourses | frontend/src/utils/api.js:292-322 | one skill pushes its direct table entry, then its synonym's entry, then the generic record |
| Api.PushSkillsCourses | frontend/src/utils/api.js:291-323 | the second loop appends every skill's courses, in skill order, after those already there |
| Api.BuildCandidates | frontend/src/utils/api.js:283-323 | the job-specific courses come first, followed by the skills' courses |
| Api.FindTitle | frontend/src/utils/api.js:329 | `findIndex` returns the first index with that title, or the end |
| Api.KeepFirsts | frontend/src/utils/api.js:326-330 | the survivors past a position are no more than the records there |
| Api.Dedupe | frontend/src/utils/api.js:326-330 | never longer than its input; its survivors are fixed by DedupeCorrect |
| Api.KeepFirstsSource | frontend/src/utils/api.js:326-330 | each survivor is the first record of its title |
| Api.KeepFirstsUnique | frontend/src/utils/api.js:326-330 | no two survivors share a title |
| Api.KeepFirstsComplete | frontend/src/utils/api.js:326-330 | the first record of every title survives |
| Api.DedupeCorrect | frontend/src/utils/api.js:326-330 | de-duplication leaves unique titles, keeps only first occurrences and loses no title |
| Api.FilterPartition | frontend/src/utils/api.js:331-336 | the free and the paid records together make up the whole list |
| Api.FilterKeepsUnique | frontend/src/utils/api.js:331-336 | filtering keeps titles unique |
| Api.FreeFirst | frontend/src/utils/api.js:331-336 | free records, then paid ones (FreeFirstIsStableSort) |
| Api.FreeFirstIsStableSort | frontend/src/utils/api.js:331-336 | the sort is a permutation, puts every free record before every paid one, and keeps the order inside each group |
| Api.FreeFirstKeepsUnique | frontend/src/utils/api.js:331-336 | the sort keeps titles unique |
| Api.TakeFirst | frontend/src/utils/api.js:337 | `slice(0, 12)` is the prefix of length min(n, 12) |
| Api.Shape | frontend/src/utils/api.js:325-337 | de-duplicate, sort free first, keep twelve (ShapeUniqueOrdered, ShapeProvenance) |
| Api.FallbackCourses | frontend/src/utils/api.js:248-340 | the shaped candidate list (FallbackCoursesInvariants, FallbackCoursesProvenance) |
| Api.GenerateEnhancedFallbackCourses | frontend/src/utils/api.js:248-340 | the generator returns the shaped candidate list |
| Api.ShapeUniqueOrdered | frontend/src/utils/api.js:325-337 | the shaped list has at most twelve records, unique titles, and free records first |
| Api.ShapeProvenance | frontend/src/utils/api.js:325-337 | every shaped record is the first of its title in the candidate list |
| Api.FallbackCoursesInvariants | frontend/src/utils/api.js:248-340 | the result has at most twelve records with unique titles, free ones first, each the first of its title among the candidates |
| Api.JobCoursesSource | frontend/src/utils/api.js:284-288 | job courses come only from keys that the lower-cased title contains |
| Api.SkillsCoursesSource | frontend/src/utils/api.js:291-323 | every skill-derived record belongs to one of the given skills: its table entry, directly or through its synonym key, or its generic record |
| Api.FallbackCoursesProvenance | frontend/src/utils/api.js:253-323 | nothing is invented: every result record is a job entry of a key the lower-cased title contains, or a given skill's table entry (direct or via the synonym) or generic record |
| Api.NoFallbackWithoutSources | frontend/src/utils/api.js:248-340 | no skills and no matching job key give an empty result |
| Api.FindTitleAt | frontend/src/utils/api.js:329 | `findIndex` finds the first record of a title |
| Api.DedupeOfRepeatedPair | frontend/src/utils/api.js:326-330 | repeated table entries are dropped after their first occurrence |
| Api.FreeFirstOfOrdered | frontend/src/utils/api.js:331-336 | a list that already has its free records first is left as it is |
| Api.ShapeOfRepeatedPair | frontend/src/utils/api.js:325-337 | the duplicates of a table looked up twice go, and the paid generic record goes last |
| Api.SoftwareEngineerExample | frontend/src/utils/api.js:248-340 | ("Software Engineer", ["javascript"]) gives Full Stack Web Development, the two JavaScript courses, then `javascript Complete Guide` |
| Api.FirstConfigured | frontend/src/utils/api.js:15 | a URL found is one of the candidates and is configured; none is found exactly when no candidate is configured |
| Api.FirstConfiguredIs | frontend/src/utils/api.js:15 | the URL found is the first configured candidate |
| Api.ApiBaseUrl | frontend/src/utils/api.js:6-38 | the first configured variable, else the localhost address or the empty string (ApiBaseUrlChoice) |
| Api.ApiBaseUrlChoice | frontend/src/utils/api.js:6-38 | the first non-blank variable, in priority order, and untrimmed; else `http://localhost:8000` on localhost or 127.0.0.1; else the empty string |
| ErrorHandler.EffectiveStatus | frontend/src/utils/errorHandler.js:38 | a missing or zero status counts as 500, and any other status is kept |
| ErrorHandler.StatusMessage | frontend/src/utils/errorHandler.js:27-41 | a listed status gets its own message and any other status gets the generic one |
| ErrorHandler.HandleApiError | frontend/src/utils/errorHandler.js:11-42 | no status gives the server-error message, and a status gives that status's message |
| ErrorHandler.RetryWithBackoff | frontend/src/utils/errorHandler.js:44-59 | at most `maxRetries` calls; the first success is returned without further calls; after all fail, the last error is rethrown; the wait after failure i is base·2^i, the first is the base and each doubles the one before, with no wait after the last; no calls and `undefined` when `maxRetries` ≤ 0 |
| Text.GetOr | backend/main.py:134-136 | a missing value is its default and a present one is kept: `dict.get(key, default)`, a default parameter, `value \|\| []` |
| Backend.LinkIn | backend/main.py:132 | the link, or the empty string, contains the site |
| Backend.ToRecord | backend/main.py:133-138 | a record with the title, link and snippet or their defaults, tagged with the platform |
| Backend.Collected | backend/main.py:128-150 | the records of the items that link into the site, in item order (CollectCourses, CollectedExactly) |
| Backend.CollectedOf | backend/main.py:130-131 | no `items` key gives no records |
| Backend.CollectedStep | backend/main.py:131-138 | each item appends its record exactly when its link contains the site |
| Backend.CollectCourses | backend/main.py:128-150 | the loop keeps the records of the items that link into the site, in order; no `items` gives none |
| Backend.CollectedExactly | backend/main.py:128-150 | every kept record links into the site, is tagged with the platform and comes from an item; every such item is kept |
| Backend.SampleCourses | backend/main.py:158-171 | the fallback is two courses, Coursera then Udemy |
| Backend.CoursesFor | backend/main.py:152-210 | the list is never empty: the found records when there are any, else the two samples, and the samples whenever either request failed |
| Backend.FetchCourses | backend/main.py:93-210 | the endpoint returns the courses list |
| Backend.CoursesForOrder | backend/main.py:152-153 | found Coursera records come before found Udemy records, each tagged with its platform |
| Backend.ToVideo | backend/main.py:225-231 | a video keeps its id and links to its watch page |
| Backend.VideosOf | backend/main.py:224-235 | only the items with a `videoId` are kept, in order and with their snippet fields; one of them lacking a snippet gives the error body |
| Backend.YoutubeCourses | backend/main.py:212-242 | HTTP and request failures give error bodies; no items or empty items give no videos and the message; otherwise the filtered videos |
| Backend.NoVideosWithoutVideoItems | backend/main.py:224-233 | items that are not videos never show up |
| Backend.CandidateText | backend/main.py:77-88 | a non-200 answer gives `Error from API: ` and the body; no candidates gives the fallback; otherwise the first part of the first candidate, or the index error |
| Backend.EndpointsAgree | backend/main.py:54-91 | when the request raised, the answer has an error status or it has candidates, the three endpoints give the same reply |
| Backend.JobMatching | backend/main.py:244-285 | a request that raises gives `{"error": str(e)}`; an answer is shaped with the `No job recommendations found.` fallback |
| Backend.ProjectGenerator | backend/main.py:287-329 | a request that raises gives `{"error": str(e)}`; an answer is shaped with the `No project ideas found.` fallback |
| Backend.AnalyzeResume | backend/main.py:54-91 | an unreadable PDF gives the error body of its `HTTPException` and no request; a request that raises gives `{"error": str(e)}`; an answer is shaped with the missing-skills fallback |
| Backend.JobMatchingErrorIff | backend/main.py:244-285 | the endpoint answers `error` exactly when the request raised or the candidate list has no first part |
| Backend.AnalyzeResumeErrorIff | backend/main.py:54-91 | with a readable PDF, the resume endpoint answers `error` exactly when the others do |
| Backend.Join | backend/main.py:43 | joining no pages gives the empty text |
| Backend.SplitJoinedPages | backend/main.py:43 | splitting the joined text gives the pages back when no page holds a line feed |
| Backend.ExtractText | backend/main.py:40-46 | the resume text is the first min(n, 3000) characters of the joined pages |
| Backend.ExtractFrom | backend/main.py:39-46 | readable pages give the capped text; any failure to read becomes a 500 `HTTPException` whose detail is `Error processing PDF: ` and the reason |
| ResultsPage.Page.constructor | frontend/src/components/Resuts.jsx:27-42 | every section starts loading, with no errors and empty results |
| ResultsPage.Page.TabStatus | frontend/src/components/Resuts.jsx:362-366 | `loading` exactly when the flag is set; `error` exactly when it is clear and an error is set; `completed` otherwise |
| ResultsPage.Page.PerformAnalysis | frontend/src/components/Resuts.jsx:56-71 | the resume, course and video requests start, and nothing else changes |
| ResultsPage.Page.Load | frontend/src/components/Resuts.jsx:44-54 | the stored analysis is kept and the analysis starts |
| ResultsPage.Page.ResumeOk | frontend/src/components/Resuts.jsx:82-92 | the skills are parsed, the text is kept, skills stop loading and the job and project requests start |
| ResultsPage.Page.ShowSkills | frontend/src/components/Resuts.jsx:85-91 | the skills list and the extracted text are set, the skills stop loading, and the job and project requests start; nothing else changes |
| ResultsPage.Page.ResumeFail | frontend/src/components/Resuts.jsx:93-96 | the skills error is set and skills stop loading; nothing else changes and nothing starts |
| ResultsPage.Page.CoursesOk | frontend/src/components/Resuts.jsx:155-161 | a non-empty list is shown, else the generated fallback; courses stop loading and no courses error is set |
| ResultsPage.Page.CoursesFail | frontend/src/components/Resuts.jsx:162-165 | the generated fallback is shown, courses stop loading and no error is set |
| ResultsPage.Page.VideosOk | frontend/src/components/Resuts.jsx:176-178 | the videos, or an empty list, are shown and videos stop loading |
| ResultsPage.Page.VideosFail | frontend/src/components/Resuts.jsx:179-182 | the videos error is set and videos stop loading |
| ResultsPage.Page.JobsOk | frontend/src/components/Resuts.jsx:203-205 | the answer is kept and jobs stop loading |
| ResultsPage.Page.JobsFail | frontend/src/components/Resuts.jsx:206-212 | the jobs error is set and jobs stop loading |
| ResultsPage.Page.ProjectsOk | frontend/src/components/Resuts.jsx:225-227 | the answer is kept and projects stop loading |
| ResultsPage.Page.ProjectsFail | frontend/src/components/Resuts.jsx:228-234 | the projects error is set and projects stop loading |
| ResultsPage.Page.RetrySection | frontend/src/components/Resuts.jsx:368-375 | that section only loads again with its error cleared, and the whole analysis restarts when one is stored |
| ResultsPage.Page.HasError | frontend/src/components/Resuts.jsx:364 | the section has a non-empty error message, which makes its tab show the error |
| ResultsPage.Page.Answer | frontend/src/components/Resuts.jsx:73-235 | running the handler of a reply leaves the page as `Handle` of what it was; its section stops loading and no other flag changes |
| ResultsPage.Handle | frontend/src/components/Resuts.jsx:73-235 | the page after one reply, each of the ten outcomes as its handler sets it (HandleLoading, HandleTouchesOwnSection) |
| ResultsPage.HandleLoading | frontend/src/components/Resuts.jsx:73-235 | a reply clears its own section's loading flag and no other |
| ResultsPage.HandleTouchesOwnSection | frontend/src/components/Resuts.jsx:73-235 | a failure other than the courses' sets a non-empty message for its own section only; a success or a course failure sets none; only a resume success starts the job and project requests; the stored analysis is kept |
| ResultsPage.HandleAll | frontend/src/components/Resuts.jsx:73-235 | the page after replies handled one after another |
| ResultsPage.HandleAllLoading | frontend/src/components/Resuts.jsx:73-235 | after a sequence of replies, a section is loading exactly when it was and no reply is for it |
| ResultsPage.Page.FormattedJobs | frontend/src/components/Resuts.jsx:355-357 | no answer gives no records, and an answer gives its formatted records |
| ResultsPage.Page.FormattedProjects | frontend/src/components/Resuts.jsx:358-360 | no answer gives no records, and an answer gives its formatted records |
| ResultsPage.ResumeFailureRun | frontend/src/components/Resuts.jsx:73-97 | after a resume failure the skills show an error, jobs and projects keep loading, and their requests never start |
| ResultsPage.CourseFailureRun | frontend/src/components/Resuts.jsx:162-165 | a failed course request completes the section with the generated list of at most twelve |
| ResultsPage.RetryRun | frontend/src/components/Resuts.jsx:368-375 | a retried section loads again without error and the analysis is started a second time |
| ResultsPage.Replay | frontend/src/components/Resuts.jsx:73-235 | replies in any order leave the page as `HandleAll` of what it was: a section stops loading exactly when it has had one, and the others keep their flags |
| ResultsPage.AllSettledRun | frontend/src/components/Resuts.jsx:73-235 | once every section has had a reply, in any order and each a success or a failure, no section is loading |
| HomePage.StepOk | frontend/src/components/Home.jsx:53-119 | which step of the try block goes through: a successful response, and for the analysis its skills field |
| HomePage.Succeeded | frontend/src/components/Home.jsx:53-119 | at most five steps succeed |
| HomePage.Started | frontend/src/components/Home.jsx:53-119 | one to five requests are made, a prefix of the request order, one more than those that succeed (five at most) |
| HomePage.SucceededIsFirstFailure | frontend/src/components/Home.jsx:53-119 | the count of successes is k exactly when the first k steps succeed and step k fails |
| HomePage.RunRequests | frontend/src/components/Home.jsx:53-119 | the five requests run in order, each result is stored as it arrives, and the run stops at the first failure |
| HomePage.RunAfterAnalysis | frontend/src/components/Home.jsx:72-119 | the four requests after the analysis run in order and stop at the first failure |
| HomePage.Requested | frontend/src/components/Home.jsx:53-119 | the fields the try block sets and the requests it makes (SubmitStopsAtFirstFailure, SubmitAllSucceed) |
| HomePage.Submit | frontend/src/components/Home.jsx:41-125 | the whole handler on a snapshot of the page (SubmitWithoutInput, SubmitSettles) |
| HomePage.SubmitWithoutInput | frontend/src/components/Home.jsx:43-46 | without a file or a job title, the alert is the only change and no request is made |
| HomePage.SubmitStopsAtFirstFailure | frontend/src/components/Home.jsx:53-124 | when step k fails first, the requests up to k are made, only the earlier steps' fields are set, one alert is shown, and loading ends |
| HomePage.SubmitAllSucceed | frontend/src/components/Home.jsx:53-124 | when every step succeeds, all five requests are made, every field is set, the page is analysed and loading ends |
| HomePage.SubmitSettles | frontend/src/components/Home.jsx:41-125 | any submit with both inputs ends loading and either analyses the page or adds one alert |
| HomePage.Page.constructor | frontend/src/components/Home.jsx:17-27 | no file, no title, empty results, not loading and not analysed |
| HomePage.Page.ChooseFile | frontend/src/components/Home.jsx:29-35 | a chosen file sets the file and its name; no choice changes nothing |
| HomePage.Page.SetJobTitle | frontend/src/components/Home.jsx:37-39 | only the job title changes |
| HomePage.Page.HandleSubmit | frontend/src/components/Home.jsx:41-125 | the page ends in the state the submit specification gives for the replies |
| HomePage.Page.NewAnalysis | frontend/src/components/Home.jsx:409-419 | every result and input is cleared, and the file name reads `No file chosen` |
| HomePage.SubmitWithoutTitle | frontend/src/components/Home.jsx:43-46 | a submit without a job title makes no request and shows the alert |
| HomePage.CoursesFailRun | frontend/src/components/Home.jsx:74-79 | a failed course request stops the run after two requests, with only the skills shown |
| HomePage.FullRunThenReset | frontend/src/components/Home.jsx:409-419 | a fully successful run is cleared by a new analysis |

## Left out

- Network, file and browser I/O are inputs to the model: `fetch`, `FormData`, files,
  blobs, `sessionStorage`, the FastAPI routes, `requests`, the Gemini, Google and
  YouTube services, and PyMuPDF. Each request is given as what it returned or how it
  failed.
- The rendering, tabs, icons and styling of both pages. Navigation to `/` when no
  analysis is stored, and the first line of `performAnalysis`, which rebuilds the file
  from storage.
- Concurrency:
  - The results page's requests run in parallel. The model has one method per
    request outcome and lets the caller order them.
  - Interleaved completions and last-answer-wins are not modelled.
- The courses reply on the results page reads `missingSkills` from a stale closure.
  The handlers take the skills as an explicit argument instead.
- `HomePage.Page.HandleSubmit` computes the final state and commits it in one step (`Show`).
  The states in between, which React batches into renders, are not modelled.
- Timers: `setTimeout` in `retryWithBackoff` is modelled only by the list of delays.
- Logging (`console`, `print`), the production-environment test in `handleAPIError`,
  `import.meta.env`, `process.env` and `window.location`. The environment values that
  decide `getApiBaseUrl` are explicit inputs.
- Full regular-expression semantics. Each pattern is an explicit scan for that one
  pattern. The bullet split drops the `\s*` after a marker because the following
  `trim` removes that white space anyway.
- Characters:
  - Lengths count Unicode scalar values, not UTF-16 code units, so a character
    outside the Basic Multilingual Plane counts once rather than twice.
  - Case-insensitive matching and `toLowerCase` are ASCII-only.
- `encodeURIComponent` is not interpreted. The generic course link is the search
  query itself, `Api.Link.UdemySearch`.
- `Api.Table` and `Api.JobTable`:
  - Lookups use plain string keys.
  - Inherited object properties such as `constructor` or `__proto__`, which a
    JavaScript object lookup would also find, are not modelled.
- `ErrorHandler.RetryWithBackoff`:
  - Integer counts and delays are modelled.
  - A fractional or `NaN` `maxRetries`, `baseDelay` or a floating-point delay is not.
- The back end's JSON is modelled as typed data:
  - Non-string JSON values, a `KeyError` deeper than the video snippet and the
    exceptions of `response.json()` are not modelled.
  - The text of exceptions other than the listed ones is abstracted.
- The prompts the three generator endpoints build are not modelled. The resume text and
  the skills only go into those prompts, and the model's answer is an input.
- `Backend.HttpExceptionText` assumes that `str()` of a FastAPI `HTTPException` reads
  `<status>: <detail>`. That rendering is Starlette's, which is not part of this model.
- `Backend.VideosOf`:
  - A video without a snippet gives the error body.
  - A YouTube item with no `id` key makes the `"videoId" in item["id"]` test at
    main.py:232 raise `KeyError`, so the back end answers
    `{"error": "Unexpected error: 'id'"}`. The model's `VideoItem` has no separate
    `id` object, so such an item is simply not a video and is dropped.
  - A snippet without its thumbnail or channel key is not modelled.
- The back end's course record has no `isFree` flag. The results page shows those
  records as its own course type, `Api.Course`, and the conversion between the two is
  not modelled.
- After a resume failure on the results page, the job and project requests are never
  made, because only the success path starts them (Resuts.jsx:89-96). Those sections
  stay loading rather than showing an error (`ResultsPage.ResumeFailureRun`).
- `HomePage.Page.Show`: an internal commit step of `HandleSubmit` (the page shows the
  given state); it has no counterpart in the source lines.

## Findings

| source | as written | input that shows it | evidently intended | confidence | as-written member | corrected member |
|---|---|---|---|---|---|---|
| frontend/src/components/Home.jsx:173-182 | the project split `\d+\.\s+Project Title:` consumes the label, so the title pattern `Project Title:\s*(.*?)` no longer finds it and every well-formed project is titled `Project` | `"1. Project Title: Chat\nDescription: An app"` | the title is the text after the label, `Chat` | not executed; high, the label is removed before the title is read | HomeFormat.TitleLostBySplit | HomeFormat.TitleKeptFromChunkStart |
