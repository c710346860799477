# Content pipeline frontend: job client, status polling and job views

This project models, in Dafny, the core of a Next.js dashboard that submits
jobs to a remote content pipeline service and follows them to completion:

- the typed pipeline client (`api-client.ts`): how a call becomes an HTTP
  request, how the response becomes a value or an `Error` with an exact
  message, the routed operations, the bounded `waitForJob` loop, and
  `createApiClient`, which reads its configuration from the environment;
- the two lighter clients (`src/lib/api-client.ts` and its copy
  `src/lib/types/api-client.ts`), which have defaults from the environment, an
  optional API key header and a bare status-code error;
- the `useJobStatus` hook (`src/jobs/use-job-status.ts`): the status, loading,
  error and polling state, `fetchStatus`, the polling effect and its cleanup,
  and `startPolling` / `stopPolling` / `refresh`;
- the dashboard page (`src/dashboard/DashboardPage.tsx`): the status counts,
  the per-type histogram, the recent-jobs prefix and the `fetchJobs` state
  updates;
- the job table (`src/jobs/job-list-component.tsx`): the sort comparator and
  the sorted copy, `toggleSort`, `formatJobType` and the parameter summary.

How the environment is modelled:

- `fetch` is a parameter, `server: HttpRequest -> FetchOutcome`. Its outcome
  is a response (status, status text, and a body that parses to a `Json`
  value or fails with a syntax error) or a rejection carrying the thrown
  value.
- `waitForJob` takes `server: nat -> HttpRequest -> FetchOutcome`: its i-th
  fetch is answered by `server(i)`, and every request it sends is proved to
  be the job's status request `GET /jobs/<id>`. The wait itself, `Await`, is
  a function of the answers `server(i)` gives to that request.
- The hook and the dashboard take the value each awaited client call yields.
- JSON values are the `Json` datatype.
- The JavaScript coercions the code relies on are written out in module
  `Js`: truthiness for `||` and `!`, `String(...)`, and the message of the
  `TypeError` thrown when a property of `null` is read.
- React's scheduling is explicit. Every hook transition is a pure function
  on `HookState`, and `JobStatusHook` applies them in place. A fetch is split
  at its `await`. Each polling-effect run starts a poll loop, whose phase is
  `Fetching`, `Waiting` or `Cleared`.

Some behaviours of the code worth stating plainly:

- A failed request rethrows what was thrown. An error response becomes an
  `Error` whose message is `API Error (<status>): <detail>`, except when its
  body is JSON `null`: reading `detail` then throws the null-read `TypeError`. A rejected
  `fetch` is rethrown as it came, whatever value it carries. There is no
  separate network-failure kind.
- The timeout of `waitForJob` is a plain `Error` whose message is
  `Job <id> did not complete within the timeout period`.
- The hook has no generation token and discards no late result. Its cleanup
  only calls `clearTimeout`. So `stopPolling` while the current loop's fetch
  is in flight leaves that loop running: when the fetch returns, the loop
  arms a timer that no cleanup owns, and that timer fetches again
  (`UseJobStatus.InFlightLoopOutlivesStop`).
- A non-positive poll interval is not rejected.
- `refresh` on a completed job calls `onComplete` again.

## Model

| member | source | states |
|---|---|---|
| Js.OrElse | api-client.ts:61-62 | `a \|\| b` on an optional string: a present, non-empty value is kept. An absent or empty one gives the fallback |
| Jobs.JobJson | api-types.ts:24-33 | the snapshot the service sends is an object whose `status` field is the status string |
| PipelineClient.MergeHeaders | api-client.ts:64-68 | the headers are `Content-Type` and `X-API-Key` plus the caller's. A caller header overrides a default one. An unset default keeps its standard value |
| PipelineClient.ResolveRequest | api-client.ts:54-74 | the URL is the override base URL when it is non-empty, else the configured one, followed by the endpoint. The key is chosen the same way. The method is the call's. The body is sent only when it is truthy |
| PipelineClient.ErrorDetail | api-client.ts:79-92 | the detail is `detail`, or `Unknown error` when `detail` is falsy. An unparsable body uses the status text, or `Unknown error` when the status text is empty. A JSON `null` body throws the null-read `TypeError` |
| PipelineClient.Classify | api-client.ts:75-99 | a rejected fetch is rethrown unchanged. An ok response yields its parsed body, or its syntax error. A non-ok response throws `API Error (<status>): <detail>`. The result is a value exactly when the response is ok and parses |
| PipelineClient.RateLimitedMessage | api-client.ts:88-92 | a 429 with body `{"detail": "rate limited"}` throws exactly `API Error (429): rate limited` |
| PipelineClient.UnparsableErrorMessage | api-client.ts:81-92 | a 502 whose body does not parse throws `API Error (502): <status text>` |
| PipelineClient.TerminalCheck | api-client.ts:229 | a snapshot is terminal exactly when its `status` is `completed` or `failed`. Reading it on `null` throws |
| PipelineClient.TerminalCheckOfJob | api-client.ts:229 | on a job snapshot the check is the status being `completed` or `failed` |
| PipelineClient.Await | api-client.ts:220-237 | with no attempts left the wait throws the timeout error without fetching. It fetches at most the attempts left. A returned snapshot is terminal |
| PipelineClient.AwaitBounded | api-client.ts:220-237 | the wait fetches at most `maxAttempts` times, and never when `maxAttempts <= 0`. Every snapshot before the last is non-terminal. A returned snapshot is terminal and is the last one given to `onUpdate` |
| PipelineClient.AwaitStopsAtFirstSettled | api-client.ts:220-233 | the wait returns the outcome of the first fetch that fails or yields a terminal snapshot, after exactly that many fetches. The earlier snapshots all go to `onUpdate` in order |
| PipelineClient.AwaitTimesOut | api-client.ts:220-237 | when no fetch settles, the wait throws the timeout error after exactly `maxAttempts` fetches, with every snapshot reported |
| PipelineClient.AlwaysPendingTimesOut | api-client.ts:220-237 | a service that keeps answering with a pending or processing job makes the wait time out after exactly `maxAttempts` fetches |
| PipelineClient.ResolveConfig | api-client.ts:244-264 | the base URL and the key come from `window.__ENV` in a browser and from `process.env` otherwise. A missing or empty base URL throws first, then a missing or empty key. Otherwise both values are taken as they are |
| PipelineClient.CreateApiClient | api-client.ts:244-269 | yields a fresh client holding exactly the resolved configuration, or throws the configuration error |
| PipelineClient.ApiClient.constructor | api-client.ts:47-49 | the client keeps the configuration it is given |
| PipelineClient.ApiClient.Request | api-client.ts:54-99 | one fetch of the resolved request, whose outcome is then classified by `Classify`. A rejection is rethrown unchanged. A value comes only from a response whose body parsed to it |
| PipelineClient.ApiClient.Plain | api-client.ts:61-74 | a call without overrides goes to the configured base URL plus the endpoint, with the configured key and the standard headers |
| PipelineClient.ApiClient.CheckHealth | api-client.ts:105-110 | GET `/health` with no body |
| PipelineClient.ApiClient.CreateJob | api-client.ts:115-121 | POST `/jobs` with body `{job_type, parameters}` |
| PipelineClient.ApiClient.StatusRequest | api-client.ts:126-131 | the status request is GET `/jobs/<id>` with the standard headers |
| PipelineClient.ApiClient.GetJobStatus | api-client.ts:126-131 | GET `/jobs/<id>`, classified |
| PipelineClient.ApiClient.ListJobs | api-client.ts:136-141 | GET `/jobs`, classified |
| PipelineClient.ApiClient.ScrapeWebsites | api-client.ts:146-153 | creates a `web_scraping` job with parameters `{targets}` |
| PipelineClient.ApiClient.ProcessContent | api-client.ts:158-165 | creates a `content_processing` job with the request as parameters |
| PipelineClient.ApiClient.DownloadYouTube | api-client.ts:170-177 | creates a `youtube_download` job with the request as parameters |
| PipelineClient.ApiClient.GenerateImageFromText | api-client.ts:182-189 | creates a `text_to_image` job with the request as parameters |
| PipelineClient.ApiClient.GenerateImageFromImage | api-client.ts:194-201 | creates an `image_to_image` job with the request as parameters |
| PipelineClient.ApiClient.WaitForJob | api-client.ts:206-238 | every fetch goes through `getJobStatus`, so the i-th attempt's outcome is the service's answer to the job's status request `GET /jobs/<id>`. The result, the number of fetches and the snapshots given to `onUpdate` are those of `Await` over those answers, with the default of 30 attempts |
| PipelineClient.WaitOptions.Interval | api-client.ts:215 | the delay between attempts is the given one, else 2000 ms |
| PipelineClient.WaitOptions.MaxAttempts | api-client.ts:216 | the number of attempts is the given one, else 30 |
| LibApiClient.BaseUrl | src/lib/api-client.ts:3 | the environment's base URL when it is set and non-empty, else `http://localhost:3000/api` |
| LibApiClient.ApiKey | src/lib/api-client.ts:4 | the environment's key, or empty when it is unset |
| LibApiClient.BuildHeaders | src/lib/api-client.ts:7-13 | `Content-Type: application/json` always. `X-API-Key` exactly when the key is non-empty. No other header |
| LibApiClient.Configure | src/lib/api-client.ts:15-18 | `{...options, headers}` keeps the caller's method and body and replaces the caller's headers |
| LibApiClient.Prepare | src/lib/api-client.ts:6-20 | the URL is the base URL plus the endpoint. The headers are the built ones, whatever the caller passed. The method defaults to GET. The body is the caller's |
| LibApiClient.Classify | src/lib/api-client.ts:20-27 | a rejected fetch is rethrown. A non-ok response throws `An error occurred: <status>`. An ok response yields its parsed body, or its syntax error |
| LibApiClient.ErrorIgnoresBody | src/lib/api-client.ts:22-25 | two error responses with the same status throw the same error, whatever their bodies |
| LibApiClient.Request | src/lib/api-client.ts:6-28 | one fetch of the prepared request, whose outcome is then classified by `Classify`. A rejection of that request is rethrown unchanged |
| LibApiClient.ListJobs | src/lib/api-client.ts:31-33 | GET `/jobs` |
| LibApiClient.GetJobStatus | src/lib/api-client.ts:35-37 | GET `/jobs/<id>` |
| LibApiClient.ScrapeWebsites | src/lib/api-client.ts:39-47 | POST `/jobs` creating a `web_scraping` job with `{targets}` |
| LibApiClient.DownloadYouTube | src/lib/api-client.ts:49-57 | POST `/jobs` creating a `youtube_download` job |
| LibApiClient.GenerateImageFromText | src/lib/api-client.ts:59-67 | POST `/jobs` creating a `text_to_image` job |
| LibTypesApiClient.ListJobs | src/lib/types/api-client.ts:37-39 | the same request and result as the other copy's `listJobs`. A rejection is rethrown |
| LibTypesApiClient.ScrapeWebsites | src/lib/types/api-client.ts:40-48 | the same request and result as the other copy's `scrapeWebsites` |
| LibTypesApiClient.DownloadYouTube | src/lib/types/api-client.ts:49-57 | the same request and result as the other copy's `downloadYouTube` |
| LibTypesApiClient.GenerateImageFromText | src/lib/types/api-client.ts:58-66 | the same request and result as the other copy's `generateImageFromText` |
| UseJobStatus.HookConfig.Interval | src/jobs/use-job-status.ts:19 | the poll interval is the given one, else 2000 ms |
| UseJobStatus.HookConfig.AutoStart | src/jobs/use-job-status.ts:20 | polling starts on mount by the given flag, else it does |
| UseJobStatus.RunEffect | src/jobs/use-job-status.ts:58-68 | with polling on and a job given, the effect starts a new loop, owns it, and its first fetch sets `loading`. Otherwise it starts nothing |
| UseJobStatus.Mount | src/jobs/use-job-status.ts:17-28 | the state starts with no status and no error. `polling` is `autoStart && !!jobId`, and when it is set one loop is fetching. The hook invariant holds |
| UseJobStatus.Cleanup | src/jobs/use-job-status.ts:71-73 | the cleanup clears the owned loop's timer only when the loop is waiting on it, and the effect gives up ownership of its loop. Nothing else changes |
| UseJobStatus.Committed | src/jobs/use-job-status.ts:58-74 | the effect re-runs exactly when `polling` changed since it last ran: the old effect is cleaned up, then the new one runs. Turning polling on starts a new fetching loop. Turning it off leaves no owned loop and clears the owned loop's pending timer. Status, error and callbacks are untouched |
| UseJobStatus.BeginFetch | src/jobs/use-job-status.ts:30-34 | without a job nothing happens. Otherwise `loading` is set |
| UseJobStatus.FailureMessage | src/jobs/use-job-status.ts:43 | the message is the job's `error` when it is truthy, else `Job failed` |
| UseJobStatus.CaughtMessage | src/jobs/use-job-status.ts:48 | a thrown `Error` keeps its message. Anything else becomes `Failed to fetch job status` |
| UseJobStatus.Caught | src/jobs/use-job-status.ts:47-51 | the `catch` stores the thrown `Error`'s message, or `Failed to fetch job status` for any other value. Polling stops. `onError` receives that message when it is given. Nothing else changes |
| UseJobStatus.Settle | src/jobs/use-job-status.ts:35-54 | every fetch ends with `loading` false, and leaves the loops alone |
| UseJobStatus.FetchStatus | src/jobs/use-job-status.ts:30-55 | without a job nothing changes. Otherwise the fetch begins and then settles |
| UseJobStatus.Started | src/jobs/use-job-status.ts:77-80 | `startPolling` sets `polling` only when a job is given |
| UseJobStatus.Stopped | src/jobs/use-job-status.ts:82-84 | `stopPolling` clears `polling` and nothing else |
| UseJobStatus.LoopSettled | src/jobs/use-job-status.ts:63-66 | a loop whose fetch returns goes from fetching to waiting, whatever `polling` is. Every other loop keeps its phase. The rest of the state is that of settling the fetch |
| UseJobStatus.LoopResumed | src/jobs/use-job-status.ts:63-65 | a loop whose timer fires goes from waiting back to fetching. Every other loop keeps its phase. The rest of the state is that of beginning a fetch |
| UseJobStatus.NoJobNoChange | src/jobs/use-job-status.ts:31 | without a job id, fetching and `startPolling` change nothing, and the hook never polls |
| UseJobStatus.SettleCompleted | src/jobs/use-job-status.ts:36-40 | a completed job is stored, polling stops, `onComplete` gets it once, and the error is untouched |
| UseJobStatus.SettleFailed | src/jobs/use-job-status.ts:41-46 | a failed job is stored, polling stops, and the error becomes the job's `error` or `Job failed`, which `onError` also gets |
| UseJobStatus.SettleThrown | src/jobs/use-job-status.ts:47-51 | a thrown error keeps the old status, stops polling, and is stored and given to `onError` |
| UseJobStatus.SettleNull | src/jobs/use-job-status.ts:36-51 | a `null` response is stored, and the null-read `TypeError` becomes the error. Polling stops. `onError` receives that message when it is given |
| UseJobStatus.SettleInProgress | src/jobs/use-job-status.ts:36-54 | any other response is stored, and only `loading` changes besides |
| UseJobStatus.SettleMonotone | src/jobs/use-job-status.ts:30-55 | a fetch never turns polling on and never clears an error. It changes the error only when it also stops polling |
| UseJobStatus.SettleNotifiesAtMostOnce | src/jobs/use-job-status.ts:30-55 | a fetch calls at most one callback, after those already called |
| UseJobStatus.ValidPreserved | src/jobs/use-job-status.ts:28-84 | every transition keeps the hook invariant: it polls only a tracked job, and the loop it owns exists and is not cleared |
| UseJobStatus.InFlightLoopOutlivesStop | src/jobs/use-job-status.ts:63-73 | `stopPolling` during the owned loop's fetch leaves that loop running. It re-arms its timer and fetches again with `polling` off |
| UseJobStatus.WaitingLoopStops | src/jobs/use-job-status.ts:71-73 | `stopPolling` while the owned loop waits clears that loop's timer |
| UseJobStatus.CompletionStopsLoop | src/jobs/use-job-status.ts:38-40 | a completed poll stops polling, and the re-render's cleanup clears the loop's timer |
| UseJobStatus.RefreshRepeatsOnComplete | src/jobs/use-job-status.ts:87-89 | `refresh` on a completed job calls `onComplete` again |
| UseJobStatus.PollUntilCompleted | src/jobs/use-job-status.ts:58-74 | in a worked run, the loop polls while the job is processing, stops at completion, and a later refresh reports the completion twice |
| UseJobStatus.JobStatusHook.constructor | src/jobs/use-job-status.ts:17-28 | the hook starts in the `Mount` state |
| UseJobStatus.JobStatusHook.Commit | src/jobs/use-job-status.ts:58-74 | a render applies `Committed` in place and keeps the invariant |
| UseJobStatus.JobStatusHook.Refresh | src/jobs/use-job-status.ts:87-89 | `refresh` applies `FetchStatus` in place |
| UseJobStatus.JobStatusHook.StartPolling | src/jobs/use-job-status.ts:77-80 | applies `Started` in place |
| UseJobStatus.JobStatusHook.StopPolling | src/jobs/use-job-status.ts:82-84 | applies `Stopped` in place |
| UseJobStatus.JobStatusHook.PollSettled | src/jobs/use-job-status.ts:63-66 | applies `LoopSettled` in place |
| UseJobStatus.JobStatusHook.TimerFires | src/jobs/use-job-status.ts:63-65 | applies `LoopResumed` in place |
| Dashboard.Filter | src/dashboard/DashboardPage.tsx:50-52 | `filter` keeps exactly the jobs that satisfy the test and adds none. Each kept job occurs as often as in the input |
| Dashboard.ComputeStats | src/dashboard/DashboardPage.tsx:48-53 | `total` is the number of jobs, and every count is at most the total |
| Dashboard.StatsPartition | src/dashboard/DashboardPage.tsx:48-53 | `completed + failed + pending == total` |
| Dashboard.StatsCons | src/dashboard/DashboardPage.tsx:48-53 | one more job adds one to the total and to exactly the count of its status |
| Dashboard.Tally | src/dashboard/DashboardPage.tsx:57 | one reduce step adds one to its type's count, starting from zero, and changes no other key |
| Dashboard.TallyAll | src/dashboard/DashboardPage.tsx:56-59 | the fold's keys are the starting keys plus the types that occur. Each value is the starting value plus that type's number of jobs |
| Dashboard.JobsByType | src/dashboard/DashboardPage.tsx:56-59 | `jobsByType` has a key exactly for each type that occurs, holding its number of jobs, which is at least one |
| Dashboard.JobsByTypeTotal | src/dashboard/DashboardPage.tsx:56-59 | the histogram's counts add up to the number of jobs |
| Dashboard.RecentJobs | src/dashboard/DashboardPage.tsx:110 | the overview list is the first `min(5, n)` jobs, in order |
| Dashboard.DashboardPage.constructor | src/dashboard/DashboardPage.tsx:19-21 | the page starts with no jobs, loading, and no error |
| Dashboard.DashboardPage.FetchJobs | src/dashboard/DashboardPage.tsx:33-45 | success replaces the jobs and clears the error. Any failure keeps the jobs and sets `Failed to load jobs. Please try again later.`. `loading` ends false either way |
| JobList.NextSort | src/jobs/job-list-component.tsx:61-68 | the toggled column becomes the sort column. On the current column the order flips. On a new column it is `desc` |
| JobList.ToggleTwice | src/jobs/job-list-component.tsx:61-68 | toggling the current column twice restores the state. Toggling a new column twice leaves it `asc` |
| JobList.Key | src/jobs/job-list-component.tsx:46-49 | each column reads its own field of the job: the id, type, status, `created_at` and `updated_at` columns hold that field's string. The error column holds the job's error string exactly when it has one. Parameters and results never do. An absent result shows as `undefined` |
| JobList.Compare | src/jobs/job-list-component.tsx:45-59 | both comparator branches order a pair by the `String(...)` of its keys, reversed for `desc` |
| JobList.DescIsSwappedAsc | src/jobs/job-list-component.tsx:49-58 | the `desc` comparison is the `asc` comparison with the arguments swapped |
| JobList.SortJobs | src/jobs/job-list-component.tsx:45 | the sorted copy is a permutation of the jobs |
| JobList.SortJobsSorted | src/jobs/job-list-component.tsx:45-59 | for a consistent `localeCompare`, every earlier job compares at most equal to every later one |
| JobList.FormatJobType | src/jobs/job-list-component.tsx:70-75 | `formatJobType` equals the character-by-character reference `Titled` and keeps the length |
| JobList.FormatFromStart | src/jobs/job-list-component.tsx:70-75 | split, capitalise and join equals the character-by-character reference `Titled` |
| JobList.FormatJobTypeChars | src/jobs/job-list-component.tsx:70-75 | `formatJobType` keeps the length. It turns each `_` into a space, upper-cases each word's first character, and keeps every other character |
| JobList.FormatWebScraping | src/jobs/job-list-component.tsx:70-75 | `web_scraping` becomes `Web Scraping` |
| JobList.LastSegment | src/jobs/job-list-component.tsx:140 | `split('/').pop()` is the longest suffix without `/`, and is empty exactly when the path is empty or ends with `/` |
| JobList.PromptPrefix | src/jobs/job-list-component.tsx:150 | `substring(0, 30)` is the prefix of length `min(30, n)` |
| JobList.ParameterSummary | src/jobs/job-list-component.tsx:133-157 | a scraping job with n targets shows `n target`, plus `s` unless n is 1. A scraping job without `targets` shows ` targets`. A download job shows its non-empty `video_url`, or `Unknown URL` when the URL is falsy. A prompt job shows `Prompt: "` and the first 30 characters, then `"...`. A missing or `null` prompt shows `Prompt: ""...`. A content job without a `source_file`, or with a `null` one, shows `File: Unknown`. An unknown type shows nothing |
| JobList.TargetPlural | src/jobs/job-list-component.tsx:135 | one target reads `1 target`, none reads `0 targets` |
| JobList.SourceFileSummary | src/jobs/job-list-component.tsx:140 | a content job shows `File: ` and the last path segment, or `Unknown` when that segment is empty |
| JobList.JobTable.constructor | src/jobs/job-list-component.tsx:42-43 | the table starts sorted by `updated_at`, `desc` |
| JobList.JobTable.ToggleSort | src/jobs/job-list-component.tsx:61-68 | `toggleSort` moves the state to `NextSort` |
| JobList.JobTable.SortedJobs | src/jobs/job-list-component.tsx:45 | `sortedJobs` for the current state is a permutation of the jobs. It is sorted by the current column and order whenever the collation is consistent |

## Left out

- Nothing is sent over a network. `fetch` and `response.json()` are the parameters described above. `JSON.stringify` of a request body is the `Json` value itself. The number-to-text rules of JSON are not modelled.
- Fractional numbers are not modelled: JSON numbers are integers.
- `setTimeout`, `setInterval` and the delay between `waitForJob` attempts are left out. Time is the order of events: the default of the `interval` option is modelled, but nothing uses the value and no clock is modelled.
- The dashboard's 30-second `setInterval` refresh is left out. `FetchJobs` can be called any number of times.
- React's batching, the order in which several pending fetches resolve, and effect re-runs caused by a changing `jobId`, `pollInterval` or callback identity are not modelled. The hook's configuration is fixed for its lifetime.
- The hook's callbacks are assumed not to throw, and the hook assumes its `jobId` does not change.
- The hook's status request is not tied to a particular client. Its fetch outcome is whatever `apiClient.getJobStatus` yields.
- `console.error` logging is left out.
- PipelineClient.ApiClient.WaitForJob: an `onUpdate` callback that throws (api-client.ts:225-226) would end the wait with its exception. The model records the snapshots passed to `onUpdate` and assumes the callback returns normally.
- `localeCompare` is the parameter `collate`. Only its sign symmetry and the transitivity of "not after" are assumed. Locale rules are not modelled.
- JobList.SortJobs: the model's insertion sort is stable, as `Array.prototype.sort` is. The model states only that the result is sorted and a permutation. Stability is not stated.
- `toUpperCase` is modelled for ASCII letters only. Other characters keep their case, and so `formatJobType` keeps the length of any input here.
- String lengths and `substring` count characters. UTF-16 code units are not modelled.
- JobList.ParameterSummary: `None` stands for any render that would throw, or for an array or object rendered as text. The exact text React would produce in those cases is not modelled.
- The dashboard's job list is the typed `response.jobs` list. A response that does not conform to the declared list type is treated like any other failure.
- Keys inherited from `Object.prototype` (such as `constructor`) in the `jobsByType` accumulator are not modelled. The accumulator is an empty map.
- Percentages and charts in `DashboardStats`, the tabs, the forms, navigation, and other presentation-only files are not part of this model.
