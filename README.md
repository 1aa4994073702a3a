# Spinnaker template CLI client — verified model

This project models, in Dafny, the part of the `roer` command-line client for
the Spinnaker API that makes decisions rather than moving bytes:

- **Task poller** (`PollTaskStatus`): fetch the task's status once per tick,
  return the first snapshot that has an end time, give up on the first failed
  fetch, and report a timeout only after a fetch shows the task still running
  on a tick where the timer has fired.
- **Endpoint classification**: for every API call, which status codes give a
  result, which mean "not found" without being an error, and which are errors.
  This includes the synchronous plan call with its "invalid template" sentinel.
- **Template publishing** (`PublishTemplate`): overrides `id` and `source` in
  the caller's template map in place, checks whether the template exists, then
  posts to the collection or to the template's own URL. The skip-plan query
  always goes last.
- **Result interpreter** (`ExtractRetrofitError`): finds the first `exception`
  variable of a finished execution and decodes its `details` into a
  `RetrofitErrorResponse`, field by field.
- **Pipeline-config conversion** (`ToClient`), with its defaults for the three
  concurrency flags.
- **Flag containment check** (`ContainsAllFlags`), a nested counting loop.
- The two decisions the CLI actions make on these results: a `TERMINAL` task is
  a failure, and an invalid-template plan is not.

Files, one module each: `common.dfy` (Option, Result, bytes, JSON values,
transport outcomes, errors), `spinnaker_model.dfy` (spinnaker/model.go),
`spinnaker_client.dfy` (spinnaker/client.go), `roer_model.dfy` (model.go),
`cliutil.dfy` (cliutil/cliutil.go), `actions.dfy` (the decisions in actions.go).

How I/O is abstracted:

- Every HTTP exchange is a `Response`: either `Failed(reason)` from the
  transport, or `Replied(status, body)`.
- Where the source unmarshals a body, the caller also passes `decoded`. This is
  the value `json.Unmarshal` would give, or `None` when unmarshalling fails.
- Real time is replaced by a sequence of `Tick`s. Each tick holds one status
  fetch and whether the timer had fired by then.
- The source's errors are values. Fixed texts, status codes, wrapping contexts,
  the transport's and the decoder's failures, and the `ErrInvalidPipelineTemplate`
  sentinel each have their own `Error` constructor.

The Go runtime panics in `PublishTemplate` are modelled as error results, and in
each case nothing is sent. One panic is an `id` entry that is missing or not a
string. The other is an override written into a nil template map, which is
what an empty YAML file reads as.

The fatal exit when the exception variable does not decode is also modelled
explicitly, as `Undecodable` and `TaskReport.Fatal`. It is never silently
turned into a value.

The poller follows spinnaker/client.go:337-352. Two things follow from the code:

- Each iteration waits for a tick before it fetches, so the first fetch comes
  one interval after the start. A `Tick` stands for "wait, then fetch".
- The code checks the end time before it looks at the timer. A finished task
  seen on the tick where the timer has fired is returned as success, not
  discarded as a timeout (`PollReturnsFirstCompleted`).

Extracting an error does not change the execution. Executions are values here,
so this holds by construction.

## Model

| member | source | states |
|---|---|---|
| `SpinnakerModel.DecodeStringItems` | spinnaker/model.go:111 | a list of strings decodes exactly when every element is a string or null, and element i becomes the i-th string ("" for null) |
| `SpinnakerModel.DecodeDetails` | spinnaker/model.go:108-116 | the details decode exactly when they are null or an object whose six tagged fields each hold a value of their kind; null gives the zero error |
| `SpinnakerModel.DecodeExceptionVariable` | spinnaker/model.go:79-83 | decoding an exception variable never reports "not found", and succeeds exactly when the value is null or an object whose `details` decode |
| `SpinnakerModel.ScanVariables` | spinnaker/model.go:76-87 | the scan reports "no structured error" exactly when no variable has key `exception` |
| `SpinnakerModel.ScanFindsFirst` | spinnaker/model.go:77-84 | the scan returns the decoding of the first variable whose key is `exception` |
| `SpinnakerModel.ExtractDecodesFirstException` | spinnaker/model.go:76-87 | the error extracted from an execution is the decoding of its first `exception` variable |
| `SpinnakerModel.ExtractIgnoresLaterVariables` | spinnaker/model.go:77-84 | whatever follows the first `exception` variable, the extracted error is the same |
| `SpinnakerModel.ExtractRetrofitError` | spinnaker/model.go:76-87 | an execution yields "no structured error" (nil) exactly when none of its variables has key `exception` |
| `SpinnakerModel.ExtractUsesOnlyFirstOfSeveral` | spinnaker/model.go:77-84 | with two `exception` variables the first one decides, and the value of the second one can be anything without changing the result |
| `SpinnakerModel.DecodedDetailsMatchTags` | spinnaker/model.go:109-116 | a decoded error holds exactly the values under the tags `error`, `errors`, `kind`, `responseBody`, `status`, `url` (zero values where absent or null) |
| `SpinnakerModel.ExceptionRoundTrip` | spinnaker/model.go:104-116 | an exception variable built from an error decodes back to that same error |
| `SpinnakerModel.ExtractRoundTrip` | spinnaker/model.go:76-87 | an execution whose first `exception` variable carries a well-formed error yields exactly that error |
| `SpinnakerClient.UrlsNestUnderEndpoint` | spinnaker/client.go:58-96 | every URL starts with the endpoint; template, config, task and application URLs extend their collection URLs |
| `SpinnakerClient.TemplateUrlInjective` | spinnaker/client.go:98-99 | different template ids give different template URLs |
| `SpinnakerClient.TemplateExists` | spinnaker/client.go:98-115 | 200 means the template exists and 404 that it does not; any other status is an error naming the id and status; a transport error is passed through unwrapped |
| `SpinnakerClient.PublishTemplateReply` | spinnaker/client.go:145-165 | the publish POST yields a task reference exactly when the reply is 202 and the body unmarshals; any other status is "create template request failed" |
| `SpinnakerClient.ApplicationSubmitTask` | spinnaker/client.go:168-191 | task submission yields a task reference exactly when the reply is 200 and the body unmarshals |
| `SpinnakerClient.DeleteTemplate` | spinnaker/client.go:270-293 | template deletion yields a task reference exactly when the reply is 202 and the body unmarshals |
| `SpinnakerClient.SubmissionCodesAreDisjoint` | spinnaker/client.go:156-283 | no reply is accepted both by task submission and by template publish or delete; publish and delete accept the same replies |
| `SpinnakerClient.ApplicationGet` | spinnaker/client.go:193-214 | 403 and 404 both mean "missing" with no error; 200 returns the body; any other status is an error naming the application and status |
| `SpinnakerClient.ApplicationList` | spinnaker/client.go:216-239 | the application list is returned exactly for a 200 reply that unmarshals; another status is an error carrying it |
| `SpinnakerClient.PlanRequest` | spinnaker/client.go:242-247 | the plan body is a templated pipeline with the plan flag set, carrying the configuration and template unchanged |
| `SpinnakerClient.Plan` | spinnaker/client.go:249-268 | no error exactly on 200; the invalid-template sentinel exactly on 400; a generic error on any other status; the body is returned whenever the server replied |
| `SpinnakerClient.GetPipelineConfig` | spinnaker/client.go:357-400 | "no config" without error exactly on 404 or on 200 with an empty body; a config exactly on 200 with a non-empty body that unmarshals |
| `SpinnakerClient.ListPipelineConfigs` | spinnaker/client.go:402-425 | the pipeline list is returned exactly for a 200 reply that unmarshals; another status is an error carrying it |
| `SpinnakerClient.SavePipelineConfig` | spinnaker/client.go:427-446 | saving succeeds exactly on a 200 reply |
| `SpinnakerClient.DeletePipeline` | spinnaker/client.go:448-468 | deleting a pipeline succeeds exactly on a 200 reply |
| `SpinnakerClient.FiatLogin` | spinnaker/client.go:470-481 | login succeeds exactly when the server replied at all, whatever the status |
| `SpinnakerClient.GetTask` | spinnaker/client.go:295-328 | a task snapshot is returned exactly for a 200 reply whose body unmarshals; the status is checked before decoding |
| `SpinnakerClient.Verdict` | spinnaker/client.go:338-348 | on a tick that stops polling: success exactly when the fetched task has an end time; timeout exactly when it has none; a failed fetch is wrapped as "failed polling task status" |
| `SpinnakerClient.Poll` | spinnaker/client.go:330-355 | polling never makes more fetches than there are ticks |
| `SpinnakerClient.PollTaskStatus` | spinnaker/client.go:330-355 | the loop returns the result and fetch count that `Poll` gives for the same ticks |
| `SpinnakerClient.PollStopsAtFirstVerdict` | spinnaker/client.go:337-352 | polling stops at the first tick that does not continue, after exactly one fetch per tick up to it, and returns that tick's verdict |
| `SpinnakerClient.PollShape` | spinnaker/client.go:337-354 | every tick before the last fetch continued; the last fetch decided the result; the "exited poll loop" error arises only when every tick continued |
| `SpinnakerClient.PollReturnsFirstCompleted` | spinnaker/client.go:342-344 | the first fetched snapshot with an end time is returned with no further fetch, even when the timer fired on that tick |
| `SpinnakerClient.PollFailsOnFirstFetchError` | spinnaker/client.go:338-341 | a failed fetch, including a non-200 reply, ends polling at once with the wrapped error; it is not retried |
| `SpinnakerClient.PollTimesOutOnlyOnRunningTask` | spinnaker/client.go:342-348 | a timeout is reported only after a successful fetch of a still-running task on a tick where the timer had fired |
| `SpinnakerClient.PollEndsOnceTimerFires` | spinnaker/client.go:333-354 | if the timer has fired by tick k, polling ends within k + 1 fetches, and the "exited poll loop" error cannot occur |
| `SpinnakerClient.WithOverrides` | spinnaker/client.go:126-133 | `id` and `source` are replaced only by non-empty options; every other entry and key is kept |
| `SpinnakerClient.OverridesIdempotent` | spinnaker/client.go:126-133 | applying the same overrides twice gives the same template as applying them once |
| `SpinnakerClient.TemplateId` | spinnaker/client.go:134 | the template is published under its `id` entry exactly when that entry is a string |
| `SpinnakerClient.OverriddenIdIsPublished` | spinnaker/client.go:126-134 | an id given in the options is always the id the template is published under |
| `SpinnakerClient.PublishTemplate` | spinnaker/client.go:124-166 | a nil map panics with nothing sent: on the first override written into it, else on the missing `id`; otherwise the caller's map is updated in place with the overrides, even on failure; the existence GET goes to the template's own URL; the POST goes to that same URL if the template exists and to the collection otherwise, with the skip-plan query last; the result is the POST's classification |
| `RoerModel.ToClient` | model.go:97-122 | parallel and limitConcurrent hold unless their flag is present and false; keepWaitingPipelines holds only if its flag is present and true; type is templatedPipeline; id, name, application and description come from the configuration; the configuration is carried unchanged |
| `RoerModel.ToClientDefaults` | model.go:99-110 | with no concurrency flags the config is parallel, limited and not waiting |
| `RoerModel.ToClientInjective` | model.go:120 | different configurations convert to different configs |
| `RoerModel.ToClientReadsOnlyNamedFlags` | model.go:97-122 | configurations that agree on identity, description and the three named flags convert alike, apart from the embedded configuration |
| `CliUtil.ContainsAllFlags` | cliutil/cliutil.go:5-16 | true exactly when the number of matching (name, context flag) pairs equals the number of names; true for no names; with no repeated context flag, true exactly when every name is a context flag |
| `CliUtil.OccurrencesWithoutDuplicates` | cliutil/cliutil.go:9-13 | in a list without repeats the inner loop counts 1 for a present name and 0 for an absent one |
| `CliUtil.AllPairsIffAllPresent` | cliutil/cliutil.go:5-16 | with no repeated context flag the pair count is at most the number of names, and equal to it exactly when every name is present |
| `CliUtil.MissingFlagFallsShort` | cliutil/cliutil.go:8-15 | with no repeated context flag, a name the context lacks makes the result false |
| `CliUtil.RepeatedContextFlagsMiscount` | cliutil/cliutil.go:5-15 | with a repeated context flag the count can reach the number of names although a name is missing, and overshoot it although every name is present |
| `Actions.ReportTask` | actions.go:101-110 | only a TERMINAL task is a failure; it shows the Retrofit error's response body exactly when a structured error was found, and the raw snapshot exactly when there is no `exception` variable |
| `Actions.PlanActionError` | actions.go:314-322 | the plan action fails exactly when the plan returned an error other than the invalid-template sentinel, and wraps that error |
| `Actions.RejectedPlanIsNotAFailure` | actions.go:314-318 | a plan answered with 400 returns its body and the sentinel, and the action does not fail |
| `Actions.UnexpectedPlanStatusFails` | actions.go:314-320 | any plan status other than 200 and 400 makes the action fail with the generic plan error |
| `Actions.PublishedTemplateCompletes` | actions.go:273-287 | a publish whose task is seen running three times and then SUCCEEDED ends after four fetches and is reported completed |
| `Actions.FailedTaskShowsResponseBody` | actions.go:101-104 | a TERMINAL task whose exception variable is well formed is reported with that error's response body |

## Left out

- HTTP transport, TLS, cookie jar, the process-wide bearer token and the
  wrapping contexts the transport helpers add (spinnaker/http.go). Each call is
  an abstract `Response`, and transport failures are one `Transport(reason)` cause.
- In `GetTask` and `GetPipelineConfig`, a failed GET and a failed body read have
  different wrapping texts in the source. The model gives both one context.
- JSON unmarshalling is a foreign library. Its result is passed in as `decoded`.
  JSON numbers are modelled as integers.
- SpinnakerModel.DecodeDetails: mapstructure's case-insensitive key lookup
  fallback and its float-to-int truncation are not modelled. Keys match exactly,
  and numbers are integers.
- Real time: the one-second ticker and the timer are replaced by the tick
  sequence. The model does not relate the timer to a duration. An in-flight
  fetch is never cancelled.
- `Poll` and `PollTaskStatus` run over a finite tick sequence. Running out of
  ticks returns the source's "exited poll loop before completion" error.
  `PollEndsOnceTimerFires` shows this cannot happen once the timer has fired.
- Request bodies are carried as JSON values only for `PublishTemplate`.
  - The other endpoint functions classify the reply and do not list the request
    they send.
  - The URL each one calls is given by the URL builders.
- The stages, modules and partials of a configuration file, and the template
  types of model.go, are carried as uninterpreted JSON values. `ToClient` only
  passes them through.
- Logging, printing and pretty-printing, CLI registration, YAML file reading,
  `render.go`, `cmd/`, and the rest of `actions.go`.
