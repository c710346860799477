/**
 * The job table of src/jobs/job-list-component.tsx: the column and
 * direction it sorts by, `toggleSort`, the sorted copy of the jobs, the
 * `snake_case` to `Title Case` formatter for job types, and the one-line
 * parameter summary each row shows.
 *
 * `localeCompare` depends on the locale; it is a parameter `collate`, of
 * which the properties assume only that it is a consistent comparison.
 */
module JobList {
  import opened Wrappers
  import opened Js
  import opened Jobs

  /** `keyof JobStatusResponse`. */
  datatype Column = JobId | JobType | Status | CreatedAt | UpdatedAt | Parameters | Results | ErrorField

  datatype SortOrder = Asc | Desc {
    function Flipped(): SortOrder {
      if this == Asc then Desc else Asc
    }
  }

  datatype SortState = SortState(sortBy: Column, sortOrder: SortOrder)

  /** The state the table starts in: newest update first. */
  const InitialSort := SortState(UpdatedAt, Desc)

  /** `toggleSort(column)`. */
  function NextSort(s: SortState, column: Column): (r: SortState)
    ensures r.sortBy == column
    ensures s.sortBy == column ==> r.sortOrder != s.sortOrder
    ensures s.sortBy != column ==> r.sortOrder == Desc
  {
    if s.sortBy == column then s.(sortOrder := s.sortOrder.Flipped()) else SortState(column, Desc)
  }

  /** Toggling the same column twice restores the state; a new column always starts descending. */
  lemma ToggleTwice(s: SortState, column: Column)
    ensures NextSort(NextSort(s, column), column) == (if s.sortBy == column then s else SortState(column, Asc))
  {
  }

  /** A column's value in a job, as the comparator sees it: a string, or anything else by its `String(...)`. */
  datatype KeyValue = Text(s: string) | Other(shown: string) {
    /** `String(value)`. */
    function Shown(): string {
      match this
      case Text(s) => s
      case Other(shown) => shown
    }
  }

  function Key(job: Job, column: Column): (r: KeyValue)
    ensures column in {JobId, JobType, Status, CreatedAt, UpdatedAt} ==> r.Text?
    ensures column == JobId ==> r == Text(job.jobId)
    ensures column == JobType ==> r == Text(job.jobType)
    ensures column == Status ==> r == Text(job.status.Name())
    ensures column == CreatedAt ==> r == Text(job.createdAt)
    ensures column == UpdatedAt ==> r == Text(job.updatedAt)
    ensures column == ErrorField && job.error.Some? ==> r == Text(job.error.value)
    ensures column == ErrorField ==> (r.Text? <==> job.error.Some?)
    ensures column == Parameters || column == Results ==> !r.Text?
    ensures column == Status ==> r.Shown() == job.status.Name()
    ensures column == Results ==> (r.Shown() == "undefined" <==> job.results.None?)
  {
    match column
    case JobId => Text(job.jobId)
    case JobType => Text(job.jobType)
    case Status => Text(job.status.Name())
    case CreatedAt => Text(job.createdAt)
    case UpdatedAt => Text(job.updatedAt)
    case Parameters => Other("[object Object]")
    case Results => if job.results.Some? then Other("[object Object]") else Other("undefined")
    case ErrorField => if job.error.Some? then Text(job.error.value) else Other("undefined")
  }

  /**
   * The comparator passed to `sort`: both string keys compare directly, any
   * other pair by `String(...)`. Both branches agree: every pair is ordered by
   * the `String(...)` of its keys, reversed for `desc`.
   */
  function Compare(collate: (string, string) -> int, s: SortState, a: Job, b: Job): (r: int)
    ensures var sa, sb := Key(a, s.sortBy).Shown(), Key(b, s.sortBy).Shown();
      r == if s.sortOrder == Asc then collate(sa, sb) else collate(sb, sa)
  {
    var va, vb := Key(a, s.sortBy), Key(b, s.sortBy);
    if va.Text? && vb.Text? then
      if s.sortOrder == Asc then collate(va.s, vb.s) else collate(vb.s, va.s)
    else
      if s.sortOrder == Asc then collate(va.Shown(), vb.Shown()) else collate(vb.Shown(), va.Shown())
  }

  /** `desc` is `asc` with the arguments swapped. */
  lemma DescIsSwappedAsc(collate: (string, string) -> int, column: Column, a: Job, b: Job)
    ensures Compare(collate, SortState(column, Desc), a, b) == Compare(collate, SortState(column, Asc), b, a)
  {
  }

  /** What the properties assume of `localeCompare`: swapped arguments give the opposite sign, and "not after" is transitive. */
  ghost predicate IsCollation(collate: (string, string) -> int) {
    && (forall x, y :: collate(x, y) < 0 <==> collate(y, x) > 0)
    && (forall x, y, z :: collate(x, y) <= 0 && collate(y, z) <= 0 ==> collate(x, z) <= 0)
  }

  /** `a` may come before `b`. */
  predicate Before(collate: (string, string) -> int, s: SortState, a: Job, b: Job) {
    Compare(collate, s, a, b) <= 0
  }

  lemma BeforeTotal(collate: (string, string) -> int, s: SortState, a: Job, b: Job)
    requires IsCollation(collate)
    ensures Before(collate, s, a, b) || Before(collate, s, b, a)
  {
  }

  lemma BeforeTransitive(collate: (string, string) -> int, s: SortState, a: Job, b: Job, c: Job)
    requires IsCollation(collate)
    requires Before(collate, s, a, b) && Before(collate, s, b, c)
    ensures Before(collate, s, a, c)
  {
    var sa, sb, sc := Key(a, s.sortBy).Shown(), Key(b, s.sortBy).Shown(), Key(c, s.sortBy).Shown();
    if s.sortOrder == Desc {
      assert collate(sc, sb) <= 0 && collate(sb, sa) <= 0;
    }
  }

  ghost predicate Sorted(collate: (string, string) -> int, s: SortState, jobs: seq<Job>) {
    forall i, j :: 0 <= i < j < |jobs| ==> Before(collate, s, jobs[i], jobs[j])
  }

  /** Inserts `job` before the first job it may precede. */
  function Insert(collate: (string, string) -> int, s: SortState, job: Job, jobs: seq<Job>): (r: seq<Job>)
    ensures multiset(r) == multiset(jobs) + multiset{job}
    ensures |r| == |jobs| + 1
    ensures forall y :: y in r ==> y == job || y in jobs
  {
    if jobs == [] then [job]
    else if Before(collate, s, job, jobs[0]) then [job] + jobs
    else
      assert jobs == [jobs[0]] + jobs[1..];
      [jobs[0]] + Insert(collate, s, job, jobs[1..])
  }

  /** `[...jobs].sort(comparator)`: a new sequence; `jobs` itself is a value and is left as it was. */
  function SortJobs(collate: (string, string) -> int, s: SortState, jobs: seq<Job>): (r: seq<Job>)
    ensures multiset(r) == multiset(jobs)
    ensures |r| == |jobs|
  {
    if jobs == [] then []
    else
      assert jobs == [jobs[0]] + jobs[1..];
      Insert(collate, s, jobs[0], SortJobs(collate, s, jobs[1..]))
  }

  lemma SortedCons(collate: (string, string) -> int, s: SortState, first: Job, rest: seq<Job>)
    requires Sorted(collate, s, rest)
    requires forall y :: y in rest ==> Before(collate, s, first, y)
    ensures Sorted(collate, s, [first] + rest)
  {
    var r := [first] + rest;
    forall i, j | 0 <= i < j < |r| ensures Before(collate, s, r[i], r[j]) {
      assert r[j] == rest[j - 1];
      if i > 0 {
        assert r[i] == rest[i - 1];
      }
    }
  }

  lemma {:induction false} InsertSorted(collate: (string, string) -> int, s: SortState, job: Job, jobs: seq<Job>)
    requires IsCollation(collate) && Sorted(collate, s, jobs)
    ensures Sorted(collate, s, Insert(collate, s, job, jobs))
  {
    if jobs == [] {
    } else if Before(collate, s, job, jobs[0]) {
      forall y | y in jobs ensures Before(collate, s, job, y) {
        var k :| 0 <= k < |jobs| && jobs[k] == y;
        if k > 0 {
          BeforeTransitive(collate, s, job, jobs[0], y);
        }
      }
      SortedCons(collate, s, job, jobs);
    } else {
      var head, tail := jobs[0], jobs[1..];
      var rest := Insert(collate, s, job, tail);
      assert Sorted(collate, s, tail) by {
        forall i, j | 0 <= i < j < |tail| ensures Before(collate, s, tail[i], tail[j]) {
          assert tail[i] == jobs[i + 1] && tail[j] == jobs[j + 1];
        }
      }
      InsertSorted(collate, s, job, tail);
      BeforeTotal(collate, s, job, head);
      forall y | y in rest ensures Before(collate, s, head, y) {
        if y != job {
          var k :| 0 <= k < |tail| && tail[k] == y;
          assert jobs[k + 1] == y;
        }
      }
      SortedCons(collate, s, head, rest);
    }
  }

  /** The sorted jobs are in comparator order. */
  lemma {:induction false} SortJobsSorted(collate: (string, string) -> int, s: SortState, jobs: seq<Job>)
    requires IsCollation(collate)
    ensures Sorted(collate, s, SortJobs(collate, s, jobs))
  {
    if jobs != [] {
      SortJobsSorted(collate, s, jobs[1..]);
      InsertSorted(collate, s, jobs[0], SortJobs(collate, s, jobs[1..]));
    }
  }

  /** ASCII `toUpperCase` of one character. */
  function Upper(c: char): char {
    if 'a' <= c <= 'z' then (c as int - 32) as char else c
  }

  /** `type.split('_')`. */
  function Split(s: string): (r: seq<string>)
    ensures |r| >= 1
  {
    if s == [] then [""]
    else if s[0] == '_' then [""] + Split(s[1..])
    else
      var rest := Split(s[1..]);
      [[s[0]] + rest[0]] + rest[1..]
  }

  /** `word.charAt(0).toUpperCase() + word.slice(1)`. */
  function Capitalize(word: string): string {
    if word == [] then [] else [Upper(word[0])] + word[1..]
  }

  function CapitalizeAll(words: seq<string>): (r: seq<string>)
    ensures |r| == |words|
  {
    if words == [] then [] else [Capitalize(words[0])] + CapitalizeAll(words[1..])
  }

  /** `words.join(' ')`. */
  function Join(words: seq<string>): string {
    if words == [] then ""
    else if |words| == 1 then words[0]
    else words[0] + " " + Join(words[1..])
  }

  /** `formatJobType`. */
  function FormatJobType(jobType: string): (r: string)
    ensures r == Titled(jobType, true)
    ensures |r| == |jobType|
  {
    FormatFromStart(jobType);
    Join(CapitalizeAll(Split(jobType)))
  }

  /**
   * The formatter character by character: `_` becomes a space, and a
   * character at the start or after `_` is upper-cased.
   */
  function Titled(s: string, atWordStart: bool): (r: string)
    ensures |r| == |s|
  {
    if s == [] then ""
    else if s[0] == '_' then " " + Titled(s[1..], true)
    else [if atWordStart then Upper(s[0]) else s[0]] + Titled(s[1..], false)
  }

  lemma {:induction false} TitledAt(s: string, atWordStart: bool, i: nat)
    requires i < |s|
    ensures Titled(s, atWordStart)[i] ==
      if s[i] == '_' then ' '
      else if (i == 0 && atWordStart) || (i > 0 && s[i - 1] == '_') then Upper(s[i])
      else s[i]
  {
    if i > 0 {
      TitledAt(s[1..], s[0] == '_', i - 1);
    }
  }

  lemma {:induction false} FormatFromStart(s: string)
    ensures Join(CapitalizeAll(Split(s))) == Titled(s, true)
    decreases |s|, 1
  {
    if s != [] {
      if s[0] == '_' {
        FormatFromStart(s[1..]);
        var rest := CapitalizeAll(Split(s[1..]));
        assert CapitalizeAll(Split(s)) == [""] + rest;
      } else {
        FormatMidWord(s[1..]);
        var words := Split(s[1..]);
        assert CapitalizeAll(Split(s)) == [[Upper(s[0])] + words[0]] + CapitalizeAll(words[1..]);
        JoinFirst([Upper(s[0])], words[0], CapitalizeAll(words[1..]));
      }
    }
  }

  lemma {:induction false} FormatMidWord(s: string)
    ensures Join([Split(s)[0]] + CapitalizeAll(Split(s)[1..])) == Titled(s, false)
    decreases |s|, 0
  {
    if s != [] {
      var words := Split(s[1..]);
      if s[0] == '_' {
        FormatFromStart(s[1..]);
        assert Split(s)[1..] == words;
      } else {
        FormatMidWord(s[1..]);
        assert Split(s)[0] == [s[0]] + words[0] && Split(s)[1..] == words[1..];
        JoinFirst([s[0]], words[0], CapitalizeAll(words[1..]));
      }
    }
  }

  lemma JoinFirst(prefix: string, word: string, rest: seq<string>)
    ensures Join([prefix + word] + rest) == prefix + Join([word] + rest)
  {
    if rest != [] {
      assert ([prefix + word] + rest)[1..] == rest;
      assert ([word] + rest)[1..] == rest;
    }
  }

  /**
   * `formatJobType` keeps the length, turns every `_` into a space, and
   * upper-cases exactly the first character of each word.
   */
  lemma FormatJobTypeChars(jobType: string)
    ensures |FormatJobType(jobType)| == |jobType|
    ensures forall i :: 0 <= i < |jobType| ==> (FormatJobType(jobType)[i] ==
      if jobType[i] == '_' then ' '
      else if i == 0 || jobType[i - 1] == '_' then Upper(jobType[i])
      else jobType[i])
  {
    FormatFromStart(jobType);
    forall i | 0 <= i < |jobType|
      ensures FormatJobType(jobType)[i] ==
        if jobType[i] == '_' then ' '
        else if i == 0 || jobType[i - 1] == '_' then Upper(jobType[i])
        else jobType[i]
    {
      TitledAt(jobType, true, i);
    }
  }

  /** Words on either side of a `_` are formatted independently. */
  lemma {:induction false} TitledUnderscore(a: string, b: string, atWordStart: bool)
    ensures Titled(a + "_" + b, atWordStart) == Titled(a, atWordStart) + " " + Titled(b, true)
  {
    if a != [] {
      assert (a + "_" + b)[1..] == a[1..] + "_" + b;
      TitledUnderscore(a[1..], b, a[0] == '_');
    }
  }

  // The worked example below is split into small lemmas, one per fact.
  lemma TitledWeb()
    ensures Titled("web", true) == "Web"
  {
  }

  lemma TitledScraping()
    ensures Titled("scraping", true) == "Scraping"
  {
  }

  lemma WebScrapingWords()
    ensures "web" + "_" + "scraping" == "web_scraping"
  {
  }

  lemma TitledWebScraping()
    ensures Titled("web_scraping", true) == "Web Scraping"
  {
    TitledUnderscore("web", "scraping", true);
    WebScrapingWords();
    TitledWeb();
    TitledScraping();
  }

  lemma FormatWebScraping()
    ensures FormatJobType("web_scraping") == "Web Scraping"
  {
    FormatFromStart("web_scraping");
    TitledWebScraping();
  }

  // ---------------------------------------------------------------------
  // The parameter summary

  /** The text React renders for a scalar child; `None` for an array or object child. */
  function Rendered(v: Option<Json>): Option<string> {
    match v
    case None => Some("")
    case Some(JNull) => Some("")
    case Some(JBool(_)) => Some("")
    case Some(JNum(n)) => Some(Decimal(n))
    case Some(JStr(s)) => Some(s)
    case Some(_) => None
  }

  /** `parameters[key]`, `undefined` when absent. */
  function Field(parameters: map<string, Json>, key: string): Option<Json> {
    if key in parameters then Some(parameters[key]) else None
  }

  /** `value?.length`. */
  function Length(v: Option<Json>): Option<Json> {
    match v
    case Some(JArr(items)) => Some(JNum(|items|))
    case Some(JStr(s)) => Some(JNum(|s|))
    case Some(JObj(fields)) => if "length" in fields then Some(fields["length"]) else None
    case _ => None
  }

  /** The text after the last `/` (`split('/').pop()`). */
  function LastSegment(path: string): (r: string)
    ensures |r| <= |path| && r == path[|path| - |r|..]
    ensures '/' !in r
    ensures |r| < |path| ==> path[|path| - |r| - 1] == '/'
    ensures r == "" <==> path == "" || path[|path| - 1] == '/'
  {
    if path == [] then ""
    else if path[|path| - 1] == '/' then ""
    else
      var init := path[..|path| - 1];
      var r := LastSegment(init) + [path[|path| - 1]];
      assert path[|path| - |r|..] == init[|init| - |LastSegment(init)|..] + [path[|path| - 1]];
      r
  }

  /** `s?.substring(0, 30)`. */
  function PromptPrefix(s: string): (r: string)
    ensures r <= s && |r| == if |s| < 30 then |s| else 30
  {
    if |s| < 30 then s else s[..30]
  }

  /**
   * The parameters cell of a row. `None` stands for a render that throws:
   * a `source_file` or `prompt` that is not a string, or an array or
   * object where the text goes.
   */
  function ParameterSummary(job: Job): (r: Option<string>)
    ensures job.jobType == WebScraping && "targets" in job.parameters && job.parameters["targets"].JArr? ==>
      var n := |job.parameters["targets"].items|;
      r == Some(Decimal(n) + " target" + (if n == 1 then "" else "s"))
    ensures (job.jobType == TextToImage || job.jobType == ImageToImage) &&
            "prompt" in job.parameters && job.parameters["prompt"].JStr? ==>
      var p := job.parameters["prompt"].s;
      r == Some("Prompt: \"" + (if |p| < 30 then p else p[..30]) + "\"...")
    ensures job.jobType == WebScraping && "targets" !in job.parameters ==> r == Some(" targets")
    ensures ((job.jobType == ContentProcessing &&
             ("source_file" !in job.parameters || job.parameters["source_file"] == JNull))) ==> r == Some("File: Unknown")
    ensures (job.jobType == YouTubeDownload && "video_url" in job.parameters && job.parameters["video_url"].JStr? &&
             job.parameters["video_url"].s != "") ==> r == Some(job.parameters["video_url"].s)
    ensures job.jobType == YouTubeDownload && !Present(Field(job.parameters, "video_url")) ==> r == Some("Unknown URL")
    ensures ((job.jobType == TextToImage || job.jobType == ImageToImage) &&
             ("prompt" !in job.parameters || job.parameters["prompt"] == JNull)) ==> r == Some("Prompt: \"\"...")
    ensures job.jobType !in {WebScraping, ContentProcessing, YouTubeDownload, TextToImage, ImageToImage} ==> r == Some("")
  {
    var p := job.parameters;
    if job.jobType == WebScraping then
      var count := Length(Field(p, "targets"));
      assert "" + " target" + "s" == " targets";
      match Rendered(count)
      case None => None
      case Some(text) => Some(text + " target" + (if count == Some(JNum(1)) then "" else "s"))
    else if job.jobType == ContentProcessing then
      match Field(p, "source_file")
      case None => Some("File: Unknown")
      case Some(JNull) => Some("File: Unknown")
      case Some(JStr(path)) => Some("File: " + (if LastSegment(path) == "" then "Unknown" else LastSegment(path)))
      case Some(_) => None
    else if job.jobType == YouTubeDownload then
      if Present(Field(p, "video_url")) then
        match Rendered(Field(p, "video_url"))
        case None => None
        case Some(text) => Some(text)
      else Some("Unknown URL")
    else if job.jobType == TextToImage || job.jobType == ImageToImage then
      match Field(p, "prompt")
      case None => Some("Prompt: \"\"...")
      case Some(JNull) => Some("Prompt: \"\"...")
      case Some(JStr(prompt)) => Some("Prompt: \"" + PromptPrefix(prompt) + "\"...")
      case Some(_) => None
    else Some("")
  }

  /** A single target is not pluralised; any other count is. */
  lemma TargetPlural(job: Job, targets: seq<Json>)
    requires job.jobType == WebScraping && job.parameters == map["targets" := JArr(targets)]
    ensures |targets| == 1 ==> ParameterSummary(job) == Some("1 target")
    ensures |targets| == 0 ==> ParameterSummary(job) == Some("0 targets")
  {
    assert Decimal(1) == "1" && Decimal(0) == "0";
    assert "1" + " target" + "" == "1 target";
    assert "0" + " target" + "s" == "0 targets";
  }

  /** A content job shows the file name after the last `/`, or "Unknown". */
  lemma SourceFileSummary(job: Job, path: string)
    requires job.jobType == ContentProcessing && "source_file" in job.parameters
    requires job.parameters["source_file"] == JStr(path)
    ensures LastSegment(path) != "" ==> ParameterSummary(job) == Some("File: " + LastSegment(path))
    ensures LastSegment(path) == "" ==> ParameterSummary(job) == Some("File: Unknown")
  {
    assert "File: " + "Unknown" == "File: Unknown";
  }

  // ---------------------------------------------------------------------
  // The component's state

  class JobTable {
    var sortBy: Column
    var sortOrder: SortOrder

    function State(): SortState
      reads this
    {
      SortState(sortBy, sortOrder)
    }

    constructor()
      ensures State() == InitialSort
    {
      sortBy := UpdatedAt;
      sortOrder := Desc;
    }

    /** `toggleSort(column)`. */
    method ToggleSort(column: Column)
      modifies this
      ensures State() == NextSort(old(State()), column)
    {
      if sortBy == column {
        sortOrder := if sortOrder == Asc then Desc else Asc;
      } else {
        sortBy := column;
        sortOrder := Desc;
      }
    }

    /** `sortedJobs` for the current sort state. */
    function SortedJobs(collate: (string, string) -> int, jobs: seq<Job>): (r: seq<Job>)
      reads this
      ensures multiset(r) == multiset(jobs)
      ensures IsCollation(collate) ==> Sorted(collate, State(), r)
    {
      var r := SortJobs(collate, State(), jobs);
      assert IsCollation(collate) ==> Sorted(collate, State(), r) by {
        if IsCollation(collate) {
          SortJobsSorted(collate, State(), jobs);
        }
      }
      r
    }
  }
}
