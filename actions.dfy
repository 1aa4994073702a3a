/** The decisions the CLI actions (actions.go) take on the client's results:
    how a finished task is reported, and which plan outcomes are failures. */
module Actions {
  import opened Common
  import opened SpinnakerModel
  import opened SpinnakerClient

  /** The status of a task that ended in failure. */
  const TerminalStatus: string := "TERMINAL"

  /** What an action reports once polling has returned a finished task. */
  datatype TaskReport =
    | Completed(status: string)            // any status other than TERMINAL
    | FailedWithDetails(responseBody: string) // the downstream response body of the Retrofit error
    | FailedRaw(task: ExecutionResponse)    // no structured error: the whole snapshot is shown
    | Fatal                                 // the exception variable did not decode; the process stops

  /** Only TERMINAL is a failure; a failure shows the structured error's
      response body when the execution carries one, else the raw snapshot. */
  function ReportTask(task: ExecutionResponse): (r: TaskReport)
    ensures r.Completed? <==> task.status != TerminalStatus
    ensures r.Completed? ==> r.status == task.status
    ensures r.FailedRaw? <==> task.status == TerminalStatus &&
                              forall i :: 0 <= i < |task.variables| ==> task.variables[i].key != ExceptionKey
    ensures r.FailedRaw? ==> r.task == task
    ensures r.FailedWithDetails? <==> task.status == TerminalStatus && ExtractRetrofitError(task).Found?
    ensures r.FailedWithDetails? ==> r.responseBody == ExtractRetrofitError(task).details.responseBody
  {
    if task.status != TerminalStatus then Completed(task.status)
    else match ExtractRetrofitError(task)
      case NotFound => FailedRaw(task)
      case Found(details) => FailedWithDetails(details.responseBody)
      case Undecodable => Fatal
  }

  /** The error the plan action returns: none on success, none either for
      a rejected template (its validation errors are shown instead), and
      the wrapped error otherwise. */
  function PlanActionError(reply: PlanReply): (r: Option<Error>)
    ensures r.None? <==> reply.error.None? || reply.error == Some(InvalidPipelineTemplate)
    ensures r.Some? ==> r.value == Wrapped("planning configuration", reply.error.value)
  {
    match reply.error
    case None => None
    case Some(e) => if e == InvalidPipelineTemplate then None else Some(Wrapped("planning configuration", e))
  }

  /** A plan answered with 400 hands its body to the caller and does not fail. */
  lemma RejectedPlanIsNotAFailure(response: Response)
    requires response.Replied? && response.status == StatusBadRequest
    ensures Plan(response).body == Some(response.body)
    ensures Plan(response).error == Some(InvalidPipelineTemplate)
    ensures PlanActionError(Plan(response)).None?
  {
  }

  /** Any other unexpected plan status is a failure of the action. */
  lemma UnexpectedPlanStatusFails(response: Response)
    requires response.Replied? && response.status != StatusOK && response.status != StatusBadRequest
    ensures PlanActionError(Plan(response)) == Some(Wrapped("planning configuration", Message("plan request failed")))
  {
  }

  /** A published template whose task is seen running three times and then
      finished is reported as completed, after four fetches. */
  lemma PublishedTemplateCompletes(body: Bytes, running: ExecutionResponse, done: ExecutionResponse)
    requires running.endTime == 0 && done.endTime == 1500 && done.status == "SUCCEEDED"
    ensures var wait := Tick(Replied(StatusOK, body), Some(running), false);
      var ticks := [wait, wait, wait, Tick(Replied(StatusOK, body), Some(done), false)];
      Poll(ticks) == PollOutcome(Ok(done), 4) && ReportTask(done) == Completed("SUCCEEDED")
  {
    var wait := Tick(Replied(StatusOK, body), Some(running), false);
    var ticks := [wait, wait, wait, Tick(Replied(StatusOK, body), Some(done), false)];
    PollReturnsFirstCompleted(ticks, 3, done);
  }

  /** A create-application task that ends TERMINAL with a well-formed
      exception variable is reported with that error's response body. */
  lemma FailedTaskShowsResponseBody(task: ExecutionResponse, d: RetrofitErrorResponse)
    requires task.status == TerminalStatus
    requires |task.variables| > 0 && task.variables[0] == ExecutionVariable(ExceptionKey, EncodeExceptionVariable(d))
    ensures ReportTask(task) == FailedWithDetails(d.responseBody)
  {
    ExtractRoundTrip(task, 0, d);
  }
}
