/**
 * The copy of the lighter client in src/lib/types/api-client.ts. Its
 * environment defaults, headers and `request` are the same text as in
 * src/lib/api-client.ts and are shared from LibApiClient; its `apiClient`
 * offers four operations (there is no `getJobStatus`).
 */
module LibTypesApiClient {
  import opened Wrappers
  import opened Js
  import opened Http
  import Lib = LibApiClient

  /** `apiClient.listJobs`: the same request and result as the other copy's. */
  function ListJobs(env: Lib.Env, server: HttpRequest -> FetchOutcome): (r: Result<Json, Thrown>)
    ensures r == Lib.ListJobs(env, server)
    ensures server(Lib.Prepare(env, "/jobs", None)).Rejected? ==>
              r == Failure(server(Lib.Prepare(env, "/jobs", None)).reason)
  {
    Lib.Request(env, "/jobs", None, server)
  }

  /** `apiClient.scrapeWebsites`: a `web_scraping` job with `{targets}`, as in the other copy. */
  function ScrapeWebsites(env: Lib.Env, targets: Json, server: HttpRequest -> FetchOutcome): (r: Result<Json, Thrown>)
    ensures r == Lib.ScrapeWebsites(env, targets, server)
  {
    Lib.Request(env, "/jobs", Some(Lib.Init(Some(POST), Some(JObj(map[
      "job_type" := JStr("web_scraping"),
      "parameters" := JObj(map["targets" := targets])])), None)), server)
  }

  /** `apiClient.downloadYouTube`: a `youtube_download` job with the params, as in the other copy. */
  function DownloadYouTube(env: Lib.Env, params: Json, server: HttpRequest -> FetchOutcome): (r: Result<Json, Thrown>)
    ensures r == Lib.DownloadYouTube(env, params, server)
  {
    Lib.Request(env, "/jobs", Some(Lib.Init(Some(POST), Some(JObj(map[
      "job_type" := JStr("youtube_download"),
      "parameters" := params])), None)), server)
  }

  /** `apiClient.generateImageFromText`: a `text_to_image` job with the params, as in the other copy. */
  function GenerateImageFromText(env: Lib.Env, params: Json, server: HttpRequest -> FetchOutcome): (r: Result<Json, Thrown>)
    ensures r == Lib.GenerateImageFromText(env, params, server)
  {
    Lib.Request(env, "/jobs", Some(Lib.Init(Some(POST), Some(JObj(map[
      "job_type" := JStr("text_to_image"),
      "parameters" := params])), None)), server)
  }
}
