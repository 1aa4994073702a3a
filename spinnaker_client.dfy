/** The Spinnaker API client (spinnaker/client.go): the URLs it calls, how
    each endpoint turns a status code into a result, the task poller, and
    template publishing. Every HTTP exchange is an abstract `Response`; a
    body the source unmarshals comes with `decoded`, the value
    `json.Unmarshal` would produce from it (`None` when it fails). */
module SpinnakerClient {
  import opened Common
  import opened SpinnakerModel

  // ---------------------------------------------------------------------
  // URL builders. Each URL is the configured endpoint followed by a path.
  // ---------------------------------------------------------------------

  function StartPipelineUrl(endpoint: string): string {
    endpoint + "/pipelines/start"
  }

  function PipelineTemplatesUrl(endpoint: string): string {
    endpoint + "/pipelineTemplates"
  }

  /** The resource URL of one template: checked by `templateExists`,
      posted to when updating, and deleted by `DeleteTemplate`. */
  function PipelineTemplateUrl(endpoint: string, id: string): string {
    PipelineTemplatesUrl(endpoint) + "/" + id
  }

  function PipelineConfigsUrl(endpoint: string, app: string): string {
    endpoint + "/applications/" + app + "/pipelineConfigs"
  }

  function PipelineConfigUrl(endpoint: string, app: string, pipelineConfigId: string): string {
    PipelineConfigsUrl(endpoint, app) + "/" + pipelineConfigId
  }

  function PipelinesUrl(endpoint: string): string {
    endpoint + "/pipelines"
  }

  function ApplicationTasksUrl(endpoint: string, app: string): string {
    endpoint + "/applications/" + app + "/tasks"
  }

  function ApplicationUrl(endpoint: string, app: string): string {
    endpoint + "/applications/" + app
  }

  function ApplicationsUrl(endpoint: string): string {
    endpoint + "/applications"
  }

  function PipelineUrl(endpoint: string, app: string, pipelineId: string): string {
    endpoint + "/pipelines/" + app + "/" + pipelineId
  }

  function FiatLoginUrl(endpoint: string): string {
    endpoint + "/login"
  }

  /** The URL `GetTask` fetches: the task reference is relative to the endpoint. */
  function TaskUrl(endpoint: string, ref: string): string {
    endpoint + ref
  }

  /** Every URL lies under the endpoint, and the per-resource URLs extend
      the URLs of their collections. */
  lemma UrlsNestUnderEndpoint(endpoint: string, app: string, id: string, ref: string)
    ensures StartPipelineUrl(endpoint) == PipelinesUrl(endpoint) + "/start"
    ensures PipelineTemplateUrl(endpoint, id)[..|PipelineTemplatesUrl(endpoint)|] == PipelineTemplatesUrl(endpoint)
    ensures PipelineConfigUrl(endpoint, app, id)[..|PipelineConfigsUrl(endpoint, app)|] == PipelineConfigsUrl(endpoint, app)
    ensures PipelineConfigsUrl(endpoint, app) == ApplicationUrl(endpoint, app) + "/pipelineConfigs"
    ensures ApplicationTasksUrl(endpoint, app) == ApplicationUrl(endpoint, app) + "/tasks"
    ensures ApplicationUrl(endpoint, app) == ApplicationsUrl(endpoint) + "/" + app
    ensures PipelineUrl(endpoint, app, id) == PipelinesUrl(endpoint) + "/" + app + "/" + id
    ensures TaskUrl(endpoint, ref)[..|endpoint|] == endpoint
    ensures FiatLoginUrl(endpoint)[..|endpoint|] == endpoint
  {
    assert PipelineTemplateUrl(endpoint, id) == PipelineTemplatesUrl(endpoint) + ("/" + id);
    assert PipelineConfigUrl(endpoint, app, id) == PipelineConfigsUrl(endpoint, app) + ("/" + id);
  }

  /** Distinct template ids name distinct template resources. */
  lemma TemplateUrlInjective(endpoint: string, id1: string, id2: string)
    requires PipelineTemplateUrl(endpoint, id1) == PipelineTemplateUrl(endpoint, id2)
    ensures id1 == id2
  {
    var prefix := PipelineTemplatesUrl(endpoint) + "/";
    assert PipelineTemplateUrl(endpoint, id1) == prefix + id1;
    assert PipelineTemplateUrl(endpoint, id2) == prefix + id2;
    assert id1 == (prefix + id1)[|prefix|..];
    assert id2 == (prefix + id2)[|prefix|..];
  }

  // ---------------------------------------------------------------------
  // Status-code classification, endpoint by endpoint.
  // ---------------------------------------------------------------------

  /** The common shape of an endpoint that accepts exactly one status code
      and then unmarshals the body. Any other status gives the error
      `statusError` builds from that status. */
  function Expect<T>(response: Response, decoded: Option<T>, expected: int,
                     context: string, statusError: int -> Error, decodeError: Error): Result<T, Error>
  {
    match response
    case Failed(reason) => Err(Wrapped(context, Transport(reason)))
    case Replied(status, _) =>
      if status != expected then Err(statusError(status))
      else if decoded.None? then Err(decodeError)
      else Ok(decoded.value)
  }

  /** `templateExists`: 200 means the template exists, 404 that it does not,
      any other status is an error naming the template and the status. */
  function TemplateExists(id: string, response: Response): (r: Result<bool, Error>)
    ensures r == Ok(true) <==> response.Replied? && response.status == StatusOK
    ensures r == Ok(false) <==> response.Replied? && response.status == StatusNotFound
    ensures response.Failed? ==> r == Err(Transport(response.reason))
    ensures response.Replied? && r.Err? ==>
      r.error == StatusMessage("Unable to determine state of the pipeline template " + id + ", status: ", response.status)
  {
    match response
    case Failed(reason) => Err(Transport(reason))
    case Replied(status, _) =>
      if status == StatusNotFound then Ok(false)
      else if status == StatusOK then Ok(true)
      else Err(StatusMessage("Unable to determine state of the pipeline template " + id + ", status: ", status))
  }

  /** The reply to the publishing POST: only 202 Accepted yields a task reference. */
  function PublishTemplateReply(response: Response, decoded: Option<TaskRefResponse>): (r: Result<TaskRefResponse, Error>)
    ensures r.Ok? <==> response.Replied? && response.status == StatusAccepted && decoded.Some?
    ensures r.Ok? ==> decoded == Some(r.value)
    ensures response.Replied? && response.status != StatusAccepted ==> r == Err(Message("create template request failed"))
  {
    Expect(response, decoded, StatusAccepted, "pipeline template publish",
           _ => Message("create template request failed"), Message("unmarshaling create template response"))
  }

  /** `ApplicationSubmitTask`: only 200 OK yields a task reference. */
  function ApplicationSubmitTask(response: Response, decoded: Option<TaskRefResponse>): (r: Result<TaskRefResponse, Error>)
    ensures r.Ok? <==> response.Replied? && response.status == StatusOK && decoded.Some?
    ensures r.Ok? ==> decoded == Some(r.value)
    ensures response.Replied? && response.status != StatusOK ==> r == Err(Message("submit task failed"))
  {
    Expect(response, decoded, StatusOK, "create application submit task",
           _ => Message("submit task failed"), Message("unmarshaling task create response"))
  }

  /** `DeleteTemplate`: only 202 Accepted yields a task reference. */
  function DeleteTemplate(response: Response, decoded: Option<TaskRefResponse>): (r: Result<TaskRefResponse, Error>)
    ensures r.Ok? <==> response.Replied? && response.status == StatusAccepted && decoded.Some?
    ensures r.Ok? ==> decoded == Some(r.value)
    ensures response.Replied? && response.status != StatusAccepted ==> r == Err(Message("delete request failed"))
  {
    Expect(response, decoded, StatusAccepted, "delete request failed",
           _ => Message("delete request failed"), Message("failed to unmarshall delete template response"))
  }

  /** No reply is accepted both by the task-submission endpoint (200) and by
      the template publish and delete endpoints (202). */
  lemma SubmissionCodesAreDisjoint(response: Response, task: Option<TaskRefResponse>, template: Option<TaskRefResponse>)
    ensures ApplicationSubmitTask(response, task).Ok? ==> PublishTemplateReply(response, template).Err?
    ensures ApplicationSubmitTask(response, task).Ok? ==> DeleteTemplate(response, template).Err?
    ensures PublishTemplateReply(response, template).Ok? <==> DeleteTemplate(response, template).Ok?
  {
  }

  /** What `ApplicationGet` learns about an application. */
  datatype ApplicationState = Missing | Present(info: Bytes)

  /** `ApplicationGet`: 403 and 404 both mean "no such application" and are
      not errors; 200 returns the body; anything else is an error. */
  function ApplicationGet(app: string, response: Response): (r: Result<ApplicationState, Error>)
    ensures r == Ok(Missing) <==>
      response.Replied? && (response.status == StatusNotFound || response.status == StatusForbidden)
    ensures r.Ok? && r.value.Present? <==> response.Replied? && response.status == StatusOK
    ensures r.Ok? && r.value.Present? ==> r.value.info == response.body
    ensures response.Replied? && r.Err? ==>
      r.error == StatusMessage("Unable to determine state of application " + app + ", status: ", response.status)
  {
    match response
    case Failed(reason) => Err(Wrapped("unable to get application info", Transport(reason)))
    case Replied(status, body) =>
      if status == StatusNotFound || status == StatusForbidden then Ok(Missing)
      else if status != StatusOK then
        Err(StatusMessage("Unable to determine state of application " + app + ", status: ", status))
      else Ok(Present(body))
  }

  /** `ApplicationList`: 200 and a body that unmarshals. */
  function ApplicationList(response: Response, decoded: Option<seq<ApplicationInfo>>): (r: Result<seq<ApplicationInfo>, Error>)
    ensures r.Ok? <==> response.Replied? && response.status == StatusOK && decoded.Some?
    ensures r.Ok? ==> decoded == Some(r.value)
    ensures response.Replied? && response.status != StatusOK ==>
      r == Err(StatusMessage("Unable to fetch application list: ", response.status))
  {
    Expect(response, decoded, StatusOK, "unable to get application list",
           code => StatusMessage("Unable to fetch application list: ", code),
           Message("unmarshaling application list"))
  }

  /** The body of a plan request: a templated pipeline with the plan flag set. */
  function PlanRequest(configuration: Value, template: Value): (r: TemplatedPipelineRequest)
    ensures r.kind == "templatedPipeline" && r.plan
    ensures r.config == configuration && r.template == template
  {
    TemplatedPipelineRequest("templatedPipeline", configuration, template, true)
  }

  /** What `Plan` returns: the body (absent only when the transport failed)
      and the error, if any. */
  datatype PlanReply = PlanReply(body: Option<Bytes>, error: Option<Error>)

  /** `Plan`: 200 is success, 400 returns the body with the
      invalid-template sentinel, any other status the body with a generic
      error. */
  function Plan(response: Response): (r: PlanReply)
    ensures r.error.None? <==> response.Replied? && response.status == StatusOK
    ensures r.error == Some(InvalidPipelineTemplate) <==> response.Replied? && response.status == StatusBadRequest
    ensures response.Replied? ==> r.body == Some(response.body)
    ensures response.Replied? && response.status != StatusOK && response.status != StatusBadRequest ==>
      r.error == Some(Message("plan request failed"))
    ensures response.Failed? ==> r == PlanReply(None, Some(Wrapped("pipeline template plan", Transport(response.reason))))
  {
    match response
    case Failed(reason) => PlanReply(None, Some(Wrapped("pipeline template plan", Transport(reason))))
    case Replied(status, body) =>
      if status != StatusOK then
        if status == StatusBadRequest then PlanReply(Some(body), Some(InvalidPipelineTemplate))
        else PlanReply(Some(body), Some(Message("plan request failed")))
      else PlanReply(Some(body), None)
  }

  /** `GetPipelineConfig`: 404, and 200 with an empty body, both mean "no
      such pipeline config" and are not errors. */
  function GetPipelineConfig(response: Response, decoded: Option<PipelineConfig<Value>>)
    : (r: Result<Option<PipelineConfig<Value>>, Error>)
    ensures r == Ok(None) <==>
      response.Replied? && (response.status == StatusNotFound || (response.status == StatusOK && response.body == []))
    ensures r.Ok? && r.value.Some? <==>
      response.Replied? && response.status == StatusOK && response.body != [] && decoded.Some?
    ensures r.Ok? && r.value.Some? ==> decoded == r.value
  {
    match response
    case Failed(reason) => Err(Wrapped("getting pipeline config", Transport(reason)))
    case Replied(status, body) =>
      if status != StatusOK then
        if status == StatusNotFound then Ok(None)
        else Err(Message("get pipeline config failed"))
      else if |body| == 0 then Ok(None)
      else match decoded
        case None => Err(Wrapped("failed unmarshaling pipeline config response", DecodeFailure))
        case Some(config) => Ok(Some(config))
  }

  /** `ListPipelineConfigs`: 200 and a body that unmarshals. */
  function ListPipelineConfigs(response: Response, decoded: Option<seq<PipelineConfig<Value>>>)
    : (r: Result<seq<PipelineConfig<Value>>, Error>)
    ensures r.Ok? <==> response.Replied? && response.status == StatusOK && decoded.Some?
    ensures r.Ok? ==> decoded == Some(r.value)
    ensures response.Replied? && response.status != StatusOK ==>
      r == Err(StatusMessage("Unable to fetch pipeline list: ", response.status))
  {
    Expect(response, decoded, StatusOK, "unable to get pipeline list",
           code => StatusMessage("Unable to fetch pipeline list: ", code),
           Message("unmarshaling pipeline list"))
  }

  /** `SavePipelineConfig`: only 200 is success. (Its error text is the
      same as the plan endpoint's.) */
  function SavePipelineConfig(response: Response): (r: Option<Error>)
    ensures r.None? <==> response.Replied? && response.status == StatusOK
    ensures response.Replied? && r.Some? ==> r.value == Message("plan request failed")
  {
    match response
    case Failed(reason) => Some(Wrapped("save pipeline config", Transport(reason)))
    case Replied(status, _) => if status != StatusOK then Some(Message("plan request failed")) else None
  }

  /** `DeletePipeline`: only 200 is success. */
  function DeletePipeline(response: Response): (r: Option<Error>)
    ensures r.None? <==> response.Replied? && response.status == StatusOK
    ensures response.Replied? && r.Some? ==> r.value == Message("delete request failed")
  {
    match response
    case Failed(reason) => Some(Wrapped("delete pipeline config", Transport(reason)))
    case Replied(status, _) => if status != StatusOK then Some(Message("delete request failed")) else None
  }

  /** `FiatLogin`: any reply counts as success; the status is not looked at. */
  function FiatLogin(response: Response): (r: Option<Error>)
    ensures r.None? <==> response.Replied?
  {
    match response
    case Failed(reason) => Some(Wrapped("fiat login", Transport(reason)))
    case Replied(_, _) => None
  }

  // ---------------------------------------------------------------------
  // Fetching and polling a task.
  // ---------------------------------------------------------------------

  /** `GetTask`: a task snapshot is returned only for a 200 reply whose
      body unmarshals; the status is checked before the body is decoded. */
  function GetTask(response: Response, decoded: Option<ExecutionResponse>): (r: Result<ExecutionResponse, Error>)
    ensures r.Ok? <==> response.Replied? && response.status == StatusOK && decoded.Some?
    ensures r.Ok? ==> decoded == Some(r.value)
    ensures response.Replied? && response.status != StatusOK ==> r == Err(Message("get task status failed"))
    ensures response.Replied? && response.status == StatusOK && decoded.None? ==>
      r == Err(Wrapped("failed unmarshaling task status response", DecodeFailure))
  {
    Expect(response, decoded, StatusOK, "getting task status",
           _ => Message("get task status failed"), Wrapped("failed unmarshaling task status response", DecodeFailure))
  }

  /** One tick of the poller's one-second ticker: the status fetch made on
      that tick, and whether the overall timer has fired by the time the
      fetch has been checked. */
  datatype Tick = Tick(response: Response, decoded: Option<ExecutionResponse>, timerFired: bool)

  /** What polling returns, and how many status fetches it made. */
  datatype PollOutcome = PollOutcome(result: Result<ExecutionResponse, Error>, fetches: nat)

  const PollFailedContext: string := "failed polling task status"
  const TimedOut: Error := Message("timed out waiting for task to complete")
  /** Returned only if the ticks run out, which the source's ticker never does. */
  const ExitedPollLoop: Error := Message("exited poll loop before completion")

  /** A tick after which the poller keeps polling: the fetch succeeded, the
      task has no end time yet, and the timer has not fired. */
  predicate Continues(t: Tick) {
    var task := GetTask(t.response, t.decoded);
    task.Ok? && task.value.endTime <= 0 && !t.timerFired
  }

  /** What the poller returns on a tick that does not continue. */
  function Verdict(t: Tick): (r: Result<ExecutionResponse, Error>)
    requires !Continues(t)
    ensures r.Ok? <==> GetTask(t.response, t.decoded).Ok? && GetTask(t.response, t.decoded).value.endTime > 0
    ensures r.Ok? ==> r == GetTask(t.response, t.decoded)
    ensures r == Err(TimedOut) <==> GetTask(t.response, t.decoded).Ok? && GetTask(t.response, t.decoded).value.endTime <= 0
    ensures GetTask(t.response, t.decoded).Err? ==> r == Err(Wrapped(PollFailedContext, GetTask(t.response, t.decoded).error))
  {
    match GetTask(t.response, t.decoded)
    case Err(e) => Err(Wrapped(PollFailedContext, e))
    case Ok(task) => if task.endTime > 0 then Ok(task) else Err(TimedOut)
  }

  /** The poller's behaviour over a sequence of ticks. */
  function Poll(ticks: seq<Tick>): (o: PollOutcome)
    ensures o.fetches <= |ticks|
  {
    if ticks == [] then PollOutcome(Err(ExitedPollLoop), 0)
    else if !Continues(ticks[0]) then PollOutcome(Verdict(ticks[0]), 1)
    else
      var rest := Poll(ticks[1..]);
      PollOutcome(rest.result, rest.fetches + 1)
  }

  /** `PollTaskStatus`: fetch on every tick; return the first snapshot with
      an end time; give up on the first failed fetch; check the timer only
      after a fetch that shows the task still running. */
  method PollTaskStatus(ticks: seq<Tick>) returns (result: Result<ExecutionResponse, Error>, fetches: nat)
    ensures PollOutcome(result, fetches) == Poll(ticks)
  {
    fetches := 0;
    var i := 0;
    while i < |ticks|
      invariant i <= |ticks| && fetches == i
      invariant Poll(ticks).result == Poll(ticks[i..]).result
      invariant Poll(ticks).fetches == i + Poll(ticks[i..]).fetches
      invariant forall j :: 0 <= j < i ==> Continues(ticks[j])
    {
      assert ticks[i..][1..] == ticks[i + 1..];
      var tick := ticks[i];
      var task := GetTask(tick.response, tick.decoded);
      fetches := fetches + 1;
      if task.Err? {
        result := Err(Wrapped(PollFailedContext, task.error));
        return;
      }
      if task.value.endTime > 0 {
        result := Ok(task.value);
        return;
      }
      if tick.timerFired {
        result := Err(TimedOut);
        return;
      }
      i := i + 1;
    }
    result := Err(ExitedPollLoop);
  }

  /** The poller stops at the first tick that does not continue, after
      exactly one fetch per tick up to and including it, and returns that
      tick's verdict. */
  lemma {:induction false} PollStopsAtFirstVerdict(ticks: seq<Tick>, k: nat)
    requires k < |ticks| && !Continues(ticks[k])
    requires forall j :: 0 <= j < k ==> Continues(ticks[j])
    ensures Poll(ticks) == PollOutcome(Verdict(ticks[k]), k + 1)
    decreases k
  {
    if k > 0 {
      assert ticks[1..][k - 1] == ticks[k];
      PollStopsAtFirstVerdict(ticks[1..], k - 1);
    }
  }

  /** Every tick before the last fetch continued, and the last fetch (unless
      the ticks ran out) is the one that decided the result. */
  lemma {:induction false} PollShape(ticks: seq<Tick>)
    ensures forall j :: 0 <= j < Poll(ticks).fetches - 1 ==> Continues(ticks[j])
    ensures Poll(ticks).result != Err(ExitedPollLoop) ==>
      Poll(ticks).fetches > 0 && !Continues(ticks[Poll(ticks).fetches - 1]) &&
      Poll(ticks).result == Verdict(ticks[Poll(ticks).fetches - 1])
    ensures Poll(ticks).result == Err(ExitedPollLoop) ==>
      Poll(ticks).fetches == |ticks| && forall j :: 0 <= j < |ticks| ==> Continues(ticks[j])
  {
    if ticks != [] && Continues(ticks[0]) {
      PollShape(ticks[1..]);
      var rest := Poll(ticks[1..]);
      forall j | 0 <= j < rest.fetches ensures Continues(ticks[j]) {
        if j > 0 { assert ticks[j] == ticks[1..][j - 1]; }
      }
      if rest.result == Err(ExitedPollLoop) {
        forall j | 0 <= j < |ticks| ensures Continues(ticks[j]) {
          if j > 0 { assert ticks[j] == ticks[1..][j - 1]; }
        }
      } else {
        assert ticks[rest.fetches] == ticks[1..][rest.fetches - 1];
      }
    }
  }

  /** The first snapshot with an end time is returned, with no further
      fetch, even when the timer fired on that same tick. */
  lemma PollReturnsFirstCompleted(ticks: seq<Tick>, k: nat, task: ExecutionResponse)
    requires k < |ticks| && forall j :: 0 <= j < k ==> Continues(ticks[j])
    requires GetTask(ticks[k].response, ticks[k].decoded) == Ok(task) && task.endTime > 0
    ensures Poll(ticks) == PollOutcome(Ok(task), k + 1)
  {
    PollStopsAtFirstVerdict(ticks, k);
  }

  /** A failed fetch, including a reply other than 200, ends polling at
      once with that error; it is not retried. */
  lemma PollFailsOnFirstFetchError(ticks: seq<Tick>, k: nat, e: Error)
    requires k < |ticks| && forall j :: 0 <= j < k ==> Continues(ticks[j])
    requires GetTask(ticks[k].response, ticks[k].decoded) == Err(e)
    ensures Poll(ticks) == PollOutcome(Err(Wrapped(PollFailedContext, e)), k + 1)
  {
    PollStopsAtFirstVerdict(ticks, k);
  }

  /** A timeout is reported only after a successful fetch of a task that is
      still running, on a tick where the timer had fired. */
  lemma PollTimesOutOnlyOnRunningTask(ticks: seq<Tick>)
    requires Poll(ticks).result == Err(TimedOut)
    ensures var n := Poll(ticks).fetches;
      n > 0 && ticks[n - 1].timerFired &&
      GetTask(ticks[n - 1].response, ticks[n - 1].decoded).Ok? &&
      GetTask(ticks[n - 1].response, ticks[n - 1].decoded).value.endTime <= 0
  {
    PollShape(ticks);
  }

  /** Once the timer has fired on tick `k`, polling ends by that tick: at
      most k + 1 fetches, and never by running out of ticks. */
  lemma PollEndsOnceTimerFires(ticks: seq<Tick>, k: nat)
    requires k < |ticks| && ticks[k].timerFired
    ensures Poll(ticks).fetches <= k + 1
    ensures Poll(ticks).result != Err(ExitedPollLoop)
  {
    PollShape(ticks);
    assert !Continues(ticks[k]);
  }

  // ---------------------------------------------------------------------
  // Publishing a template.
  // ---------------------------------------------------------------------

  datatype PublishTemplateOptions = PublishTemplateOptions(skipPlan: bool, templateId: string, source: string)

  const SkipPlanQuery: string := "?skipPlanDependents=true"

  /** A template as the caller holds it: a map that publishing updates in
      place. `isNil` marks Go's nil map (what an empty YAML file reads as):
      it has no entries, and writing an entry into it panics. */
  class Template {
    var entries: map<string, Value>
    var isNil: bool

    constructor (entries: map<string, Value>, isNil: bool)
      requires isNil ==> entries == map[]
      ensures this.entries == entries && this.isNil == isNil
    {
      this.entries := entries;
      this.isNil := isNil;
    }
  }

  /** The template after the caller's overrides: `id` and `source` are
      replaced only by options that are not empty. */
  function WithOverrides(entries: map<string, Value>, options: PublishTemplateOptions): (r: map<string, Value>)
    ensures forall key :: key in r <==> key in entries || (key == "id" && options.templateId != "") ||
                                        (key == "source" && options.source != "")
    ensures forall key :: key in entries && key != "id" && key != "source" ==> r[key] == entries[key]
    ensures options.templateId != "" ==> r["id"] == Str(options.templateId)
    ensures options.templateId == "" && "id" in entries ==> r["id"] == entries["id"]
    ensures options.source != "" ==> r["source"] == Str(options.source)
    ensures options.source == "" && "source" in entries ==> r["source"] == entries["source"]
  {
    var withId := if options.templateId != "" then entries["id" := Str(options.templateId)] else entries;
    if options.source != "" then withId["source" := Str(options.source)] else withId
  }

  /** Applying the same overrides twice changes nothing more. */
  lemma OverridesIdempotent(entries: map<string, Value>, options: PublishTemplateOptions)
    ensures WithOverrides(WithOverrides(entries, options), options) == WithOverrides(entries, options)
  {
    var once := WithOverrides(entries, options);
    var twice := WithOverrides(once, options);
    assert forall key :: key in twice <==> key in once;
    assert forall key :: key in twice ==> twice[key] == once[key];
  }

  /** The id the template is published under: its `id` entry, when that is
      a string (otherwise the source panics on the type assertion). */
  function TemplateId(entries: map<string, Value>): (r: Option<string>)
    ensures r.Some? <==> "id" in entries && entries["id"].Str?
    ensures r.Some? ==> entries["id"] == Str(r.value)
  {
    if "id" in entries && entries["id"].Str? then Some(entries["id"].s) else None
  }

  /** An id given in the options is always the id published under. */
  lemma OverriddenIdIsPublished(entries: map<string, Value>, options: PublishTemplateOptions)
    requires options.templateId != ""
    ensures TemplateId(WithOverrides(entries, options)) == Some(options.templateId)
  {
  }

  const PanicNoTemplateId: Error := Panic("template id is not a string")

  const PanicNilMapWrite: Error := Panic("assignment to entry in nil map")

  /** `PublishTemplate`: override `id` and `source` in the caller's map,
      check whether the template exists, then POST the template to the
      collection URL (new template) or to the template's own URL (existing
      template), with the skip-plan query appended last when requested.
      Returns the requests it issued, in order, and the task reference.
      A nil template panics before anything is sent: on the first override
      written into it, or else on the missing `id`. */
  method PublishTemplate(endpoint: string, template: Template, options: PublishTemplateOptions,
                         existsResponse: Response, postResponse: Response, decoded: Option<TaskRefResponse>)
    returns (requests: seq<Request>, result: Result<TaskRefResponse, Error>)
    modifies template
    ensures template.isNil == old(template.isNil)
    ensures old(template.isNil) ==>
      && template.entries == old(template.entries)
      && requests == []
      && result == Err(if options.templateId != "" || options.source != "" then PanicNilMapWrite else PanicNoTemplateId)
    ensures !old(template.isNil) ==> template.entries == WithOverrides(old(template.entries), options)
    ensures !old(template.isNil) && TemplateId(template.entries).None? ==> requests == [] && result == Err(PanicNoTemplateId)
    ensures !old(template.isNil) && TemplateId(template.entries).Some? ==>
      var id := TemplateId(template.entries).value;
      var check := Get(PipelineTemplateUrl(endpoint, id));
      match TemplateExists(id, existsResponse)
      case Err(e) =>
        requests == [check] && result == Err(Wrapped("unable to check status of template", e))
      case Ok(found) =>
        var path := if found then PipelineTemplateUrl(endpoint, id) else PipelineTemplatesUrl(endpoint);
        var url := if options.skipPlan then path + SkipPlanQuery else path;
        requests == [check, Post(url, Object(template.entries))] &&
        result == PublishTemplateReply(postResponse, decoded)
  {
    var url := PipelineTemplatesUrl(endpoint);
    if template.isNil {
      requests := [];
      if options.templateId != "" || options.source != "" {
        result := Err(PanicNilMapWrite);
      } else {
        result := Err(PanicNoTemplateId);
      }
      return;
    }
    if options.templateId != "" {
      template.entries := template.entries["id" := Str(options.templateId)];
    }
    if options.source != "" {
      template.entries := template.entries["source" := Str(options.source)];
    }
    if !("id" in template.entries && template.entries["id"].Str?) {
      requests, result := [], Err(PanicNoTemplateId);
      return;
    }
    var id := template.entries["id"].s;
    requests := [Get(PipelineTemplateUrl(endpoint, id))];
    var check := TemplateExists(id, existsResponse);
    if check.Err? {
      result := Err(Wrapped("unable to check status of template", check.error));
      return;
    }
    if check.value {
      url := url + "/" + id;
    }
    if options.skipPlan {
      url := url + SkipPlanQuery;
    }
    requests := requests + [Post(url, Object(template.entries))];
    result := PublishTemplateReply(postResponse, decoded);
  }
}
