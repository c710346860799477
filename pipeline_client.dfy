/**
 * The typed client of the pipeline service (api-client.ts): how a call
 * becomes a request, how a response becomes a value or an error, the routed
 * operations, the bounded wait for a job, and construction from the
 * environment.
 */
module PipelineClient {
  import opened Wrappers
  import opened Js
  import opened Http
  import opened Jobs

  datatype Config = Config(baseUrl: string, apiKey: string)

  /** `Partial<ApiClientConfig>`: per-call overrides of the configured values. */
  datatype ConfigOverride = ConfigOverride(baseUrl: Option<string>, apiKey: Option<string>)

  const NoOverride := ConfigOverride(None, None)

  /** The options of one `request` call, after its defaults `config = {}` and `headers = {}`. */
  datatype RequestOptions = RequestOptions(
    verb: Method,
    endpoint: string,
    body: Option<Json>,
    config: ConfigOverride,
    headers: Headers)

  /** `CreateJobRequest`: the kind of job and its kind-specific parameters. */
  datatype CreateJobRequest = CreateJobRequest(jobType: string, parameters: Json) {
    function ToJson(): Json {
      JObj(map["job_type" := JStr(jobType), "parameters" := parameters])
    }
  }

  // ---------------------------------------------------------------------------
  // Building a request
  // ---------------------------------------------------------------------------

  /** The two standard headers, then the caller's headers spread over them. */
  function MergeHeaders(apiKey: string, headers: Headers): (r: Headers)
    ensures r.Keys == headers.Keys + {ContentType, ApiKeyHeader}
    ensures forall name :: name in headers ==> r[name] == headers[name]
    ensures ContentType !in headers ==> r[ContentType] == JsonMediaType
    ensures ApiKeyHeader !in headers ==> r[ApiKeyHeader] == apiKey
  {
    map[ContentType := JsonMediaType, ApiKeyHeader := apiKey] + headers
  }

  /** The request `request` hands to `fetch` under the client configuration `config`. */
  function ResolveRequest(config: Config, opts: RequestOptions): (r: HttpRequest)
    ensures r.httpMethod == opts.verb
    ensures opts.config.baseUrl.Some? && opts.config.baseUrl.value != "" ==>
              r.url == opts.config.baseUrl.value + opts.endpoint
    ensures opts.config.baseUrl.None? || opts.config.baseUrl.value == "" ==>
              r.url == config.baseUrl + opts.endpoint
    ensures opts.config.apiKey.Some? && opts.config.apiKey.value != "" ==>
              r.headers == MergeHeaders(opts.config.apiKey.value, opts.headers)
    ensures opts.config.apiKey.None? || opts.config.apiKey.value == "" ==>
              r.headers == MergeHeaders(config.apiKey, opts.headers)
    ensures r.body.Some? <==> Present(opts.body)
    ensures r.body.Some? ==> r.body == opts.body
  {
    var url := OrElse(opts.config.baseUrl, config.baseUrl) + opts.endpoint;
    var apiKey := OrElse(opts.config.apiKey, config.apiKey);
    HttpRequest(url, opts.verb, MergeHeaders(apiKey, opts.headers), if Present(opts.body) then opts.body else None)
  }

  // ---------------------------------------------------------------------------
  // Classifying a response
  // ---------------------------------------------------------------------------

  const UnknownError := "Unknown error"

  /**
   * The `<detail>` of an error response: `errorData.detail || 'Unknown error'`,
   * where `errorData` is the parsed body, or `{detail: statusText}` when the body
   * does not parse. A `null` body makes reading `.detail` throw.
   */
  function ErrorDetail(response: Response): (r: Result<string, Thrown>)
    ensures response.body.Unparsable? ==>
              r == Success(if response.statusText != "" then response.statusText else UnknownError)
    ensures response.body == Parsed(JNull) ==> r == Failure(Error(NullReadMessage("detail")))
    ensures response.body.Parsed? && !response.body.value.JNull? ==>
              var detail := Property(response.body.value, "detail");
              r == Success(if Present(detail) then ToString(detail.value) else UnknownError)
    ensures forall s :: response.body == Parsed(JObj(map["detail" := JStr(s)])) && s != "" ==> r == Success(s)
  {
    match response.body
    case Unparsable(_) => Success(if response.statusText != "" then response.statusText else UnknownError)
    case Parsed(data) =>
      if data.JNull? then Failure(Error(NullReadMessage("detail")))
      else
        var detail := Property(data, "detail");
        Success(if Present(detail) then ToString(detail.value) else UnknownError)
  }

  function ApiErrorMessage(status: int, detail: string): string {
    "API Error (" + Decimal(status) + "): " + detail
  }

  /**
   * What awaiting `request` yields for one fetch outcome. Nothing is retried:
   * a rejected fetch's error is rethrown as it is.
   */
  function Classify(outcome: FetchOutcome): (r: Result<Json, Thrown>)
    ensures outcome.Rejected? ==> r == Failure(outcome.reason)
    ensures outcome.Responded? && outcome.response.Ok() ==>
              match outcome.response.body
              case Parsed(v) => r == Success(v)
              case Unparsable(e) => r == Failure(Error(e))
    ensures outcome.Responded? && !outcome.response.Ok() ==>
              r.Failure? &&
              match ErrorDetail(outcome.response)
              case Success(detail) => r.error == Error(ApiErrorMessage(outcome.response.status, detail))
              case Failure(e) => r.error == e
    ensures r.Success? <==> outcome.Responded? && outcome.response.Ok() && outcome.response.body.Parsed?
  {
    match outcome
    case Rejected(reason) => Failure(reason)
    case Responded(response) =>
      if !response.Ok() then
        match ErrorDetail(response)
        case Success(detail) => Failure(Error(ApiErrorMessage(response.status, detail)))
        case Failure(e) => Failure(e)
      else
        match response.body
        case Parsed(v) => Success(v)
        case Unparsable(e) => Failure(Error(e))
  }

  /** A 429 whose body is `{"detail": "rate limited"}` surfaces exactly this message. */
  lemma RateLimitedMessage()
    ensures Classify(Responded(Response(429, "Too Many Requests", Parsed(JObj(map["detail" := JStr("rate limited")])))))
            == Failure(Error("API Error (429): rate limited"))
  {
    var body := Parsed(JObj(map["detail" := JStr("rate limited")]));
    var response := Response(429, "Too Many Requests", body);
    assert Property(body.value, "detail") == Some(JStr("rate limited"));
    assert ErrorDetail(response) == Success("rate limited");
    assert Decimal(429) == "429" by {
      assert Digits(4) == "4";
      assert Digits(42) == "42";
    }
    assert ApiErrorMessage(429, "rate limited") == "API Error (429): rate limited";
  }

  /** A 502 whose body does not parse surfaces its status text. */
  lemma UnparsableErrorMessage(statusText: string, syntaxError: string)
    requires statusText != ""
    ensures Classify(Responded(Response(502, statusText, Unparsable(syntaxError))))
            == Failure(Error("API Error (502): " + statusText))
  {
    var response := Response(502, statusText, Unparsable(syntaxError));
    assert ErrorDetail(response) == Success(statusText);
    assert Decimal(502) == "502" by {
      assert Digits(5) == "5";
      assert Digits(50) == "50";
    }
    assert ApiErrorMessage(502, statusText) == "API Error (502): " + statusText;
  }

  // ---------------------------------------------------------------------------
  // Waiting for a job
  // ---------------------------------------------------------------------------

  const DefaultInterval := 2000
  const DefaultMaxAttempts := 30

  /** The options of `waitForJob` (an `onUpdate` callback is reported through the snapshots it receives). */
  datatype WaitOptions = WaitOptions(interval: Option<int>, maxAttempts: Option<int>) {
    /** The delay between attempts: the given one, else 2000 ms. */
    function Interval(): (r: int)
      ensures interval.Some? ==> r == interval.value
      ensures interval.None? ==> r == 2000
    {
      interval.GetOr(DefaultInterval)
    }

    /** The number of attempts: the given one, else 30. */
    function MaxAttempts(): (r: int)
      ensures maxAttempts.Some? ==> r == maxAttempts.value
      ensures maxAttempts.None? ==> r == 30
    {
      maxAttempts.GetOr(DefaultMaxAttempts)
    }
  }

  function TimeoutMessage(jobId: string): string {
    "Job " + jobId + " did not complete within the timeout period"
  }

  /** `status.status === 'completed' || status.status === 'failed'`; reading `.status` of `null` throws. */
  function TerminalCheck(v: Json): (r: Result<bool, Thrown>)
    ensures r.Failure? <==> v.JNull?
    ensures r.Failure? ==> r.error == Error(NullReadMessage("status"))
    ensures r == Success(true) <==>
              Property(v, "status") == Some(JStr("completed")) || Property(v, "status") == Some(JStr("failed"))
  {
    if v.JNull? then Failure(Error(NullReadMessage("status")))
    else
      var status := Property(v, "status");
      Success(status == Some(JStr("completed")) || status == Some(JStr("failed")))
  }

  /** On a snapshot the service sends, the terminal check is the job status being terminal. */
  lemma TerminalCheckOfJob(job: Job)
    ensures TerminalCheck(JobJson(job)) == Success(job.status.Terminal())
  {
    var v := JobJson(job);
    assert Property(v, "status") == Some(JStr(job.status.Name()));
    match job.status
    case Pending =>
      assert "pending" != "completed" && "pending" != "failed";
    case Processing =>
      assert "processing" != "completed" && "processing" != "failed";
    case Completed =>
    case Failed =>
  }

  /** What `waitForJob` did: its result, how many fetches it made, and the snapshots given to `onUpdate`. */
  datatype WaitTrace = WaitTrace(result: Result<Json, Thrown>, fetches: nat, updates: seq<Json>)

  /**
   * The loop of `waitForJob` from attempt `attempt` on, where the i-th fetch of
   * the job's status has the outcome `replies(i)`.
   */
  function Await(jobId: string, replies: nat -> FetchOutcome, attempt: nat, maxAttempts: int): (r: WaitTrace)
    ensures attempt >= maxAttempts ==> r == WaitTrace(Failure(Error(TimeoutMessage(jobId))), 0, [])
    ensures r.fetches <= (if attempt < maxAttempts then maxAttempts - attempt else 0)
    ensures r.result.Success? ==> TerminalCheck(r.result.value) == Success(true)
    decreases if attempt < maxAttempts then maxAttempts - attempt else 0
  {
    if attempt >= maxAttempts then WaitTrace(Failure(Error(TimeoutMessage(jobId))), 0, [])
    else
      match Classify(replies(attempt))
      case Failure(e) => WaitTrace(Failure(e), 1, [])
      case Success(v) =>
        match TerminalCheck(v)
        case Failure(e) => WaitTrace(Failure(e), 1, [v])
        case Success(done) =>
          if done then WaitTrace(Success(v), 1, [v])
          else
            var rest := Await(jobId, replies, attempt + 1, maxAttempts);
            WaitTrace(rest.result, rest.fetches + 1, [v] + rest.updates)
  }

  /** One step of the wait, by the outcome of the fetch made at `attempt`. */
  lemma AwaitStep(jobId: string, replies: nat -> FetchOutcome, attempt: nat, maxAttempts: int, status: Result<Json, Thrown>)
    requires attempt < maxAttempts && status == Classify(replies(attempt))
    ensures status.Failure? ==> Await(jobId, replies, attempt, maxAttempts) == WaitTrace(status, 1, [])
    ensures status.Success? && TerminalCheck(status.value).Failure? ==>
              Await(jobId, replies, attempt, maxAttempts)
              == WaitTrace(Failure(TerminalCheck(status.value).error), 1, [status.value])
    ensures status.Success? && TerminalCheck(status.value) == Success(true) ==>
              Await(jobId, replies, attempt, maxAttempts) == WaitTrace(status, 1, [status.value])
    ensures status.Success? && TerminalCheck(status.value) == Success(false) ==>
              var rest := Await(jobId, replies, attempt + 1, maxAttempts);
              Await(jobId, replies, attempt, maxAttempts)
              == WaitTrace(rest.result, rest.fetches + 1, [status.value] + rest.updates)
  {
  }

  /** The loop invariant of `waitForJob` survives a non-terminal snapshot. */
  lemma AwaitAdvance(jobId: string, replies: nat -> FetchOutcome, attempt: nat, maxAttempts: int, seen: seq<Json>)
    requires attempt < maxAttempts
    requires Classify(replies(attempt)).Success? && TerminalCheck(Classify(replies(attempt)).value) == Success(false)
    requires var rest := Await(jobId, replies, attempt, maxAttempts);
             Await(jobId, replies, 0, maxAttempts) == WaitTrace(rest.result, attempt + rest.fetches, seen + rest.updates)
    ensures var rest := Await(jobId, replies, attempt + 1, maxAttempts);
            Await(jobId, replies, 0, maxAttempts)
            == WaitTrace(rest.result, attempt + 1 + rest.fetches, (seen + [Classify(replies(attempt)).value]) + rest.updates)
  {
    var v := Classify(replies(attempt)).value;
    var rest := Await(jobId, replies, attempt + 1, maxAttempts);
    AwaitStep(jobId, replies, attempt, maxAttempts, Classify(replies(attempt)));
    assert seen + ([v] + rest.updates) == (seen + [v]) + rest.updates;
  }

  /** A fetch outcome on which the wait stops: an error, or a snapshot that is terminal or unreadable. */
  predicate Settles(o: FetchOutcome) {
    Classify(o).Failure? || TerminalCheck(Classify(o).value) != Success(false)
  }

  /** The result of the wait when it stops on outcome `o`. */
  function SettledResult(o: FetchOutcome): Result<Json, Thrown> {
    match Classify(o)
    case Failure(e) => Failure(e)
    case Success(v) => if TerminalCheck(v).Failure? then Failure(TerminalCheck(v).error) else Success(v)
  }

  /** Snapshots of the non-settling fetches `from` .. `to`-1. */
  function Snapshots(replies: nat -> FetchOutcome, from: nat, to: nat): (s: seq<Json>)
    requires from <= to
    requires forall i :: from <= i < to ==> !Settles(replies(i))
    ensures |s| == to - from
    decreases (to as int) - from
  {
    if from == to then []
    else
      assert !Settles(replies(from));
      [Classify(replies(from)).value] + Snapshots(replies, from + 1, to)
  }

  /**
   * The wait fetches at most `maxAttempts` times, returns only a terminal
   * snapshot (the last one given to `onUpdate`), and every earlier snapshot
   * was non-terminal.
   */
  lemma {:induction false} AwaitBounded(jobId: string, replies: nat -> FetchOutcome, attempt: nat, maxAttempts: int)
    ensures var t := Await(jobId, replies, attempt, maxAttempts);
            && (attempt >= maxAttempts ==> t.fetches == 0)
            && (attempt < maxAttempts ==> 1 <= t.fetches <= maxAttempts - attempt)
            && (|t.updates| == t.fetches || |t.updates| + 1 == t.fetches)
            && (forall i :: 0 <= i < |t.updates| - 1 ==> TerminalCheck(t.updates[i]) == Success(false))
            && (t.result.Success? ==> t.updates != [] && t.result.value == t.updates[|t.updates| - 1]
                                      && TerminalCheck(t.result.value) == Success(true))
    decreases if attempt < maxAttempts then maxAttempts - attempt else 0
  {
    if attempt < maxAttempts {
      var o := replies(attempt);
      if Classify(o).Success? && TerminalCheck(Classify(o).value) == Success(false) {
        AwaitBounded(jobId, replies, attempt + 1, maxAttempts);
        var rest := Await(jobId, replies, attempt + 1, maxAttempts);
        var t := Await(jobId, replies, attempt, maxAttempts);
        assert t.updates == [Classify(o).value] + rest.updates;
        if rest.result.Success? {
          assert t.updates[|t.updates| - 1] == rest.updates[|rest.updates| - 1];
        }
      }
    }
  }

  /** The wait returns the outcome of the first settling fetch, after exactly that many fetches. */
  lemma {:induction false} AwaitStopsAtFirstSettled(
    jobId: string, replies: nat -> FetchOutcome, attempt: nat, maxAttempts: int, k: nat)
    requires attempt <= k < maxAttempts
    requires forall i :: attempt <= i < k ==> !Settles(replies(i))
    requires Settles(replies(k))
    ensures var t := Await(jobId, replies, attempt, maxAttempts);
            && t.fetches == k - attempt + 1
            && t.result == SettledResult(replies(k))
            && |t.updates| >= k - attempt
            && t.updates[..k - attempt] == Snapshots(replies, attempt, k)
    decreases k - attempt
  {
    if attempt < k {
      assert !Settles(replies(attempt));
      AwaitStopsAtFirstSettled(jobId, replies, attempt + 1, maxAttempts, k);
      var rest := Await(jobId, replies, attempt + 1, maxAttempts);
      var t := Await(jobId, replies, attempt, maxAttempts);
      assert t.updates == [Classify(replies(attempt)).value] + rest.updates;
      assert t.updates[..k - attempt] == [Classify(replies(attempt)).value] + rest.updates[..k - (attempt + 1)];
    }
  }

  /**
   * When no fetch settles, the wait fails with the timeout error after exactly
   * `maxAttempts` fetches (none when `maxAttempts <= 0`), every snapshot given to `onUpdate`.
   */
  lemma {:induction false} AwaitTimesOut(jobId: string, replies: nat -> FetchOutcome, attempt: nat, maxAttempts: int)
    requires forall i :: attempt <= i < maxAttempts ==> !Settles(replies(i))
    ensures var t := Await(jobId, replies, attempt, maxAttempts);
            && t.result == Failure(Error(TimeoutMessage(jobId)))
            && t.fetches == (if attempt < maxAttempts then maxAttempts - attempt else 0)
            && t.updates == Snapshots(replies, attempt, attempt + t.fetches)
    decreases if attempt < maxAttempts then maxAttempts - attempt else 0
  {
    if attempt < maxAttempts {
      assert !Settles(replies(attempt));
      AwaitTimesOut(jobId, replies, attempt + 1, maxAttempts);
    }
  }

  /** A service that always answers with a pending or processing snapshot: timeout after exactly `maxAttempts` fetches. */
  lemma AlwaysPendingTimesOut(jobId: string, job: Job, maxAttempts: nat)
    requires !job.status.Terminal()
    ensures var t := Await(jobId, _ => Responded(Response(200, "OK", Parsed(JobJson(job)))), 0, maxAttempts);
            t.result == Failure(Error(TimeoutMessage(jobId))) && t.fetches == maxAttempts
  {
    var replies: nat -> FetchOutcome := _ => Responded(Response(200, "OK", Parsed(JobJson(job))));
    TerminalCheckOfJob(job);
    AwaitTimesOut(jobId, replies, 0, maxAttempts);
  }

  // ---------------------------------------------------------------------------
  // Construction from the environment
  // ---------------------------------------------------------------------------

  /**
   * Where the configuration comes from: in a browser, the optional
   * `window.__ENV` object; on the server, `process.env`.
   */
  datatype Environment = Environment(inBrowser: bool, windowEnv: Option<map<string, string>>, processEnv: map<string, string>)

  function EnvValue(env: Environment, windowKey: string, processKey: string): Option<string> {
    if env.inBrowser then
      if env.windowEnv.Some? && windowKey in env.windowEnv.value then Some(env.windowEnv.value[windowKey]) else None
    else
      if processKey in env.processEnv then Some(env.processEnv[processKey]) else None
  }

  function BaseUrlSetting(env: Environment): Option<string> {
    EnvValue(env, "API_BASE_URL", "NEXT_PUBLIC_API_BASE_URL")
  }

  function ApiKeySetting(env: Environment): Option<string> {
    EnvValue(env, "API_KEY", "NEXT_PUBLIC_API_KEY")
  }

  const MissingBaseUrl := "API_BASE_URL is not defined"
  const MissingApiKey := "API_KEY is not defined"

  /** The configuration `createApiClient` builds, or the error it throws; the base URL is checked first. */
  function ResolveConfig(env: Environment): (r: Result<Config, Thrown>)
    ensures OrElse(BaseUrlSetting(env), "") == "" ==> r == Failure(Error(MissingBaseUrl))
    ensures OrElse(BaseUrlSetting(env), "") != "" && OrElse(ApiKeySetting(env), "") == "" ==>
              r == Failure(Error(MissingApiKey))
    ensures r.Success? <==> OrElse(BaseUrlSetting(env), "") != "" && OrElse(ApiKeySetting(env), "") != ""
    ensures r.Success? ==> r.value == Config(BaseUrlSetting(env).value, ApiKeySetting(env).value)
  {
    var baseUrl := BaseUrlSetting(env);
    var apiKey := ApiKeySetting(env);
    if baseUrl.None? || baseUrl.value == "" then Failure(Error(MissingBaseUrl))
    else if apiKey.None? || apiKey.value == "" then Failure(Error(MissingApiKey))
    else Success(Config(baseUrl.value, apiKey.value))
  }

  /** `createApiClient`: a fresh client holding exactly the configured values, or the configuration error. */
  method CreateApiClient(env: Environment) returns (r: Result<ApiClient, Thrown>)
    ensures r.Success? <==> ResolveConfig(env).Success?
    ensures r.Success? ==> fresh(r.value) && r.value.config == ResolveConfig(env).value
    ensures r.Failure? ==> r.error == ResolveConfig(env).error
  {
    match ResolveConfig(env)
    case Failure(e) =>
      r := Failure(e);
    case Success(config) =>
      var client := new ApiClient(config);
      r := Success(client);
  }

  // ---------------------------------------------------------------------------
  // The client
  // ---------------------------------------------------------------------------

  class ApiClient {
    /** The private configuration, set once by the constructor. */
    const config: Config

    constructor (config: Config)
      ensures this.config == config
    {
      this.config := config;
    }

    /**
     * `request`: one fetch of the resolved request, classified. An error of
     * any kind is rethrown unchanged; nothing is retried.
     */
    function Request(opts: RequestOptions, server: HttpRequest -> FetchOutcome): (r: Result<Json, Thrown>)
      ensures r == Classify(server(ResolveRequest(config, opts)))
      ensures server(ResolveRequest(config, opts)).Rejected? ==>
                r == Failure(server(ResolveRequest(config, opts)).reason)
      ensures r.Success? ==> server(ResolveRequest(config, opts)) == Responded(Response(
                server(ResolveRequest(config, opts)).response.status,
                server(ResolveRequest(config, opts)).response.statusText,
                Parsed(r.value)))
    {
      Classify(server(ResolveRequest(config, opts)))
    }

    /** The request a call with method `verb`, `endpoint` and `body` sends, with no overrides. */
    function Plain(verb: Method, endpoint: string, body: Option<Json>): (r: HttpRequest)
      ensures r.url == config.baseUrl + endpoint && r.httpMethod == verb
      ensures r.headers == map[ContentType := JsonMediaType, ApiKeyHeader := config.apiKey]
      ensures body.Some? && body.value.JObj? ==> r.body == body
      ensures body.None? ==> r.body == None
    {
      var r := ResolveRequest(config, RequestOptions(verb, endpoint, body, NoOverride, map[]));
      assert r.headers == map[ContentType := JsonMediaType, ApiKeyHeader := config.apiKey];
      r
    }

    /** `checkHealth`: GET `/health`. */
    function CheckHealth(server: HttpRequest -> FetchOutcome): (r: Result<Json, Thrown>)
      ensures r == Classify(server(HttpRequest(config.baseUrl + "/health", GET,
                map[ContentType := JsonMediaType, ApiKeyHeader := config.apiKey], None)))
    {
      assert Plain(GET, "/health", None).body == None;
      Request(RequestOptions(GET, "/health", None, NoOverride, map[]), server)
    }

    /** `createJob`: POST `/jobs` with the request as body. */
    function CreateJob(request: CreateJobRequest, server: HttpRequest -> FetchOutcome): (r: Result<Json, Thrown>)
      ensures r == Classify(server(HttpRequest(config.baseUrl + "/jobs", POST,
                map[ContentType := JsonMediaType, ApiKeyHeader := config.apiKey],
                Some(JObj(map["job_type" := JStr(request.jobType), "parameters" := request.parameters])))))
    {
      assert Plain(POST, "/jobs", Some(request.ToJson())).body == Some(request.ToJson());
      Request(RequestOptions(POST, "/jobs", Some(request.ToJson()), NoOverride, map[]), server)
    }

    /** The request `getJobStatus` sends: GET `/jobs/<id>`. */
    function StatusRequest(jobId: string): (r: HttpRequest)
      ensures r == HttpRequest(config.baseUrl + "/jobs/" + jobId, GET,
                map[ContentType := JsonMediaType, ApiKeyHeader := config.apiKey], None)
    {
      assert config.baseUrl + ("/jobs/" + jobId) == config.baseUrl + "/jobs/" + jobId;
      Plain(GET, "/jobs/" + jobId, None)
    }

    /** `getJobStatus`: GET `/jobs/<id>`. */
    function GetJobStatus(jobId: string, server: HttpRequest -> FetchOutcome): (r: Result<Json, Thrown>)
      ensures r == Classify(server(HttpRequest(config.baseUrl + "/jobs/" + jobId, GET,
                map[ContentType := JsonMediaType, ApiKeyHeader := config.apiKey], None)))
    {
      assert config.baseUrl + ("/jobs/" + jobId) == config.baseUrl + "/jobs/" + jobId;
      assert Plain(GET, "/jobs/" + jobId, None).body == None;
      Request(RequestOptions(GET, "/jobs/" + jobId, None, NoOverride, map[]), server)
    }

    /** `listJobs`: GET `/jobs`. */
    function ListJobs(server: HttpRequest -> FetchOutcome): (r: Result<Json, Thrown>)
      ensures r == Classify(server(HttpRequest(config.baseUrl + "/jobs", GET,
                map[ContentType := JsonMediaType, ApiKeyHeader := config.apiKey], None)))
    {
      assert Plain(GET, "/jobs", None).body == None;
      Request(RequestOptions(GET, "/jobs", None, NoOverride, map[]), server)
    }

    /** `scrapeWebsites`: a `web_scraping` job whose parameters are `{targets}`. */
    function ScrapeWebsites(targets: Json, server: HttpRequest -> FetchOutcome): (r: Result<Json, Thrown>)
      ensures r == Classify(server(Plain(POST, "/jobs", Some(JObj(map[
                "job_type" := JStr("web_scraping"),
                "parameters" := JObj(map["targets" := targets])])))))
    {
      CreateJob(CreateJobRequest(WebScraping, JObj(map["targets" := targets])), server)
    }

    /** `processContent`: a `content_processing` job with the request as parameters. */
    function ProcessContent(request: Json, server: HttpRequest -> FetchOutcome): (r: Result<Json, Thrown>)
      ensures r == Classify(server(Plain(POST, "/jobs", Some(JObj(map[
                "job_type" := JStr("content_processing"), "parameters" := request])))))
    {
      CreateJob(CreateJobRequest(ContentProcessing, request), server)
    }

    /** `downloadYouTube`: a `youtube_download` job with the request as parameters. */
    function DownloadYouTube(request: Json, server: HttpRequest -> FetchOutcome): (r: Result<Json, Thrown>)
      ensures r == Classify(server(Plain(POST, "/jobs", Some(JObj(map[
                "job_type" := JStr("youtube_download"), "parameters" := request])))))
    {
      CreateJob(CreateJobRequest(YouTubeDownload, request), server)
    }

    /** `generateImageFromText`: a `text_to_image` job with the request as parameters. */
    function GenerateImageFromText(request: Json, server: HttpRequest -> FetchOutcome): (r: Result<Json, Thrown>)
      ensures r == Classify(server(Plain(POST, "/jobs", Some(JObj(map[
                "job_type" := JStr("text_to_image"), "parameters" := request])))))
    {
      CreateJob(CreateJobRequest(TextToImage, request), server)
    }

    /** `generateImageFromImage`: an `image_to_image` job with the request as parameters. */
    function GenerateImageFromImage(request: Json, server: HttpRequest -> FetchOutcome): (r: Result<Json, Thrown>)
      ensures r == Classify(server(Plain(POST, "/jobs", Some(JObj(map[
                "job_type" := JStr("image_to_image"), "parameters" := request])))))
    {
      CreateJob(CreateJobRequest(ImageToImage, request), server)
    }

    /**
     * `waitForJob`: fetch the job's status at most `maxAttempts` times (the
     * i-th fetch is answered by `server(i)`), hand each snapshot to `onUpdate`,
     * return the first terminal one, and otherwise throw the timeout error.
     * The result is that of `Await` over the answers `server(i)` gives to the
     * job's status request. `sent` lists the requests made and `updates` the
     * snapshots `onUpdate` saw.
     */
    method WaitForJob(jobId: string, options: WaitOptions, server: nat -> HttpRequest -> FetchOutcome)
      returns (r: Result<Json, Thrown>, sent: seq<HttpRequest>, updates: seq<Json>)
      ensures WaitTrace(r, |sent|, updates)
              == Await(jobId, (i: nat) => server(i)(StatusRequest(jobId)), 0, options.MaxAttempts())
      ensures forall i :: 0 <= i < |sent| ==> sent[i] == StatusRequest(jobId)
    {
      var replies: nat -> FetchOutcome := (i: nat) => server(i)(StatusRequest(jobId));
      var maxAttempts := options.MaxAttempts();
      var attempts: nat := 0;
      sent, updates := [], [];
      while attempts < maxAttempts
        invariant |sent| == attempts && |updates| == attempts
        invariant forall i :: 0 <= i < |sent| ==> sent[i] == StatusRequest(jobId)
        invariant var rest := Await(jobId, replies, attempts, maxAttempts);
                  Await(jobId, replies, 0, maxAttempts)
                  == WaitTrace(rest.result, attempts + rest.fetches, updates + rest.updates)
        decreases maxAttempts - attempts
      {
        sent := sent + [StatusRequest(jobId)];
        var status := GetJobStatus(jobId, server(attempts));
        assert status == Classify(replies(attempts));
        AwaitStep(jobId, replies, attempts, maxAttempts, status);
        if status.Failure? {
          r := Failure(status.error);
          return;
        }
        updates := updates + [status.value];
        var terminal := TerminalCheck(status.value);
        if terminal.Failure? {
          r := Failure(terminal.error);
          return;
        }
        if terminal.value {
          r := status;
          return;
        }
        AwaitAdvance(jobId, replies, attempts, maxAttempts, updates[..attempts]);
        assert updates[..attempts] + [status.value] == updates;
        attempts := attempts + 1;
      }
      r := Failure(Error(TimeoutMessage(jobId)));
    }
  }
}
