/**
 * The lighter client of src/lib/api-client.ts: a module-level `request`
 * with defaults taken from the environment, and an `apiClient` object of
 * five operations.
 */
module LibApiClient {
  import opened Wrappers
  import opened Js
  import opened Http

  const DefaultBaseUrl := "http://localhost:3000/api"

  /** `process.env.NEXT_PUBLIC_API_BASE_URL` and `process.env.NEXT_PUBLIC_API_KEY`, read when the module loads. */
  datatype Env = Env(baseUrl: Option<string>, apiKey: Option<string>)

  /** `API_BASE_URL`: the variable when it is set and non-empty, else the local default. */
  function BaseUrl(env: Env): (r: string)
    ensures env.baseUrl.Some? && env.baseUrl.value != "" ==> r == env.baseUrl.value
    ensures env.baseUrl.None? || env.baseUrl.value == "" ==> r == DefaultBaseUrl
  {
    OrElse(env.baseUrl, DefaultBaseUrl)
  }

  /** `API_KEY`: the variable, or the empty string when it is unset. */
  function ApiKey(env: Env): (r: string)
    ensures r == "" <==> env.apiKey.None? || env.apiKey.value == ""
    ensures r != "" ==> r == env.apiKey.value
  {
    OrElse(env.apiKey, "")
  }

  /** `Content-Type` always; `X-API-Key` only for a non-empty key. */
  function BuildHeaders(apiKey: string): (r: Headers)
    ensures ContentType in r && r[ContentType] == JsonMediaType
    ensures ApiKeyHeader in r <==> apiKey != ""
    ensures ApiKeyHeader in r ==> r[ApiKeyHeader] == apiKey
    ensures r.Keys <= {ContentType, ApiKeyHeader}
  {
    var headers := map[ContentType := JsonMediaType];
    if apiKey != "" then headers[ApiKeyHeader := apiKey] else headers
  }

  /** The `RequestInit` fields the model follows: method, body (the value given to `JSON.stringify`) and headers. */
  datatype Init = Init(verb: Option<Method>, body: Option<Json>, headers: Option<Headers>)

  /** `{...options, headers}`: everything the caller gave, except that the headers are the built ones. */
  function Configure(options: Option<Init>, headers: Headers): (r: Init)
    ensures r.headers == Some(headers)
    ensures options.Some? ==> r.verb == options.value.verb && r.body == options.value.body
    ensures options.None? ==> r.verb == None && r.body == None
  {
    match options
    case None => Init(None, None, Some(headers))
    case Some(o) => o.(headers := Some(headers))
  }

  /** The request `request(endpoint, options)` hands to `fetch`; `fetch` defaults the method to GET. */
  function Prepare(env: Env, endpoint: string, options: Option<Init>): (r: HttpRequest)
    ensures r.url == BaseUrl(env) + endpoint
    ensures r.headers == BuildHeaders(ApiKey(env))
    ensures r.httpMethod == (if options.Some? && options.value.verb.Some? then options.value.verb.value else GET)
    ensures r.body == (if options.Some? then options.value.body else None)
  {
    var init := Configure(options, BuildHeaders(ApiKey(env)));
    HttpRequest(BaseUrl(env) + endpoint, init.verb.GetOr(GET), init.headers.value, init.body)
  }

  function ErrorMessage(status: int): string {
    "An error occurred: " + Decimal(status)
  }

  /** What awaiting `request` yields for one fetch outcome; an error response's body is never read. */
  function Classify(outcome: FetchOutcome): (r: Result<Json, Thrown>)
    ensures outcome.Rejected? ==> r == Failure(outcome.reason)
    ensures outcome.Responded? && !outcome.response.Ok() ==>
              r == Failure(Error(ErrorMessage(outcome.response.status)))
    ensures outcome.Responded? && outcome.response.Ok() ==>
              match outcome.response.body
              case Parsed(v) => r == Success(v)
              case Unparsable(e) => r == Failure(Error(e))
  {
    match outcome
    case Rejected(reason) => Failure(reason)
    case Responded(response) =>
      if !response.Ok() then Failure(Error(ErrorMessage(response.status)))
      else
        match response.body
        case Parsed(v) => Success(v)
        case Unparsable(e) => Failure(Error(e))
  }

  /** Two error responses with the same status give the same error, whatever their bodies and status texts. */
  lemma ErrorIgnoresBody(a: Response, b: Response)
    requires !a.Ok() && a.status == b.status
    ensures Classify(Responded(a)) == Classify(Responded(b))
    ensures Classify(Responded(a)) == Failure(Error("An error occurred: " + Decimal(a.status)))
  {
  }

  /** `request`: one fetch of the prepared request, classified. */
  function Request(env: Env, endpoint: string, options: Option<Init>, server: HttpRequest -> FetchOutcome): (r: Result<Json, Thrown>)
    ensures r == Classify(server(Prepare(env, endpoint, options)))
    ensures server(Prepare(env, endpoint, options)).Rejected? ==>
              r == Failure(server(Prepare(env, endpoint, options)).reason)
  {
    Classify(server(Prepare(env, endpoint, options)))
  }

  /** The body of a job creation: `{job_type, parameters}`. */
  function CreateBody(jobType: string, parameters: Json): Json {
    JObj(map["job_type" := JStr(jobType), "parameters" := parameters])
  }

  /** The options of a job creation: POST with the creation body. */
  function CreateOptions(jobType: string, parameters: Json): Option<Init> {
    Some(Init(Some(POST), Some(CreateBody(jobType, parameters)), None))
  }

  /** `apiClient.listJobs`: GET `/jobs`. */
  function ListJobs(env: Env, server: HttpRequest -> FetchOutcome): (r: Result<Json, Thrown>)
    ensures r == Classify(server(HttpRequest(BaseUrl(env) + "/jobs", GET, BuildHeaders(ApiKey(env)), None)))
  {
    Request(env, "/jobs", None, server)
  }

  /** `apiClient.getJobStatus`: GET `/jobs/<id>`. */
  function GetJobStatus(env: Env, jobId: string, server: HttpRequest -> FetchOutcome): (r: Result<Json, Thrown>)
    ensures r == Classify(server(HttpRequest(BaseUrl(env) + "/jobs/" + jobId, GET, BuildHeaders(ApiKey(env)), None)))
  {
    assert BaseUrl(env) + ("/jobs/" + jobId) == BaseUrl(env) + "/jobs/" + jobId;
    Request(env, "/jobs/" + jobId, None, server)
  }

  /** `apiClient.scrapeWebsites`: POST `/jobs` creating a `web_scraping` job with parameters `{targets}`. */
  function ScrapeWebsites(env: Env, targets: Json, server: HttpRequest -> FetchOutcome): (r: Result<Json, Thrown>)
    ensures r == Classify(server(HttpRequest(BaseUrl(env) + "/jobs", POST, BuildHeaders(ApiKey(env)),
              Some(JObj(map["job_type" := JStr("web_scraping"), "parameters" := JObj(map["targets" := targets])])))))
  {
    Request(env, "/jobs", CreateOptions("web_scraping", JObj(map["targets" := targets])), server)
  }

  /** `apiClient.downloadYouTube`: POST `/jobs` creating a `youtube_download` job with the params. */
  function DownloadYouTube(env: Env, params: Json, server: HttpRequest -> FetchOutcome): (r: Result<Json, Thrown>)
    ensures r == Classify(server(HttpRequest(BaseUrl(env) + "/jobs", POST, BuildHeaders(ApiKey(env)),
              Some(JObj(map["job_type" := JStr("youtube_download"), "parameters" := params])))))
  {
    Request(env, "/jobs", CreateOptions("youtube_download", params), server)
  }

  /** `apiClient.generateImageFromText`: POST `/jobs` creating a `text_to_image` job with the params. */
  function GenerateImageFromText(env: Env, params: Json, server: HttpRequest -> FetchOutcome): (r: Result<Json, Thrown>)
    ensures r == Classify(server(HttpRequest(BaseUrl(env) + "/jobs", POST, BuildHeaders(ApiKey(env)),
              Some(JObj(map["job_type" := JStr("text_to_image"), "parameters" := params])))))
  {
    Request(env, "/jobs", CreateOptions("text_to_image", params), server)
  }
}
