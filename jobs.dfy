/** The job record the pipeline service returns, and its status. */
module Jobs {
  import opened Wrappers
  import opened Js

  const WebScraping := "web_scraping"
  const ContentProcessing := "content_processing"
  const YouTubeDownload := "youtube_download"
  const TextToImage := "text_to_image"
  const ImageToImage := "image_to_image"

  datatype JobStatus = Pending | Processing | Completed | Failed {

    /** `completed` and `failed` end a job. */
    predicate Terminal() {
      this == Completed || this == Failed
    }

    /** The status string on the wire. */
    function Name(): string {
      match this
      case Pending => "pending"
      case Processing => "processing"
      case Completed => "completed"
      case Failed => "failed"
    }
  }

  /** A job snapshot (`JobStatusResponse`). */
  datatype Job = Job(
    jobId: string,
    jobType: string,
    status: JobStatus,
    createdAt: string,
    updatedAt: string,
    parameters: map<string, Json>,
    results: Option<map<string, Json>>,
    error: Option<string>)

  /** The JSON object by which the service sends `job`; absent optional fields are left out. */
  function JobJson(job: Job): (v: Json)
    ensures v.JObj? && "status" in v.fields && v.fields["status"] == JStr(job.status.Name())
  {
    var required := map[
      "job_id" := JStr(job.jobId),
      "job_type" := JStr(job.jobType),
      "status" := JStr(job.status.Name()),
      "created_at" := JStr(job.createdAt),
      "updated_at" := JStr(job.updatedAt),
      "parameters" := JObj(job.parameters)];
    var withResults := if job.results.Some? then required["results" := JObj(job.results.value)] else required;
    JObj(if job.error.Some? then withResults["error" := JStr(job.error.value)] else withResults)
  }
}
