/** The records the Spinnaker API exchanges with the client
    (spinnaker/model.go), and the interpreter that pulls a structured
    Retrofit error out of a finished execution's variables. */
module SpinnakerModel {
  import opened Common

  /** The body of a plan request. `template` is `Null` when no template is
      inlined (it is then sent as null). */
  datatype TemplatedPipelineRequest =
    TemplatedPipelineRequest(kind: string, config: Value, template: Value, plan: bool)

  /** The validation-error payload a rejected plan carries. It is a different
      shape from RetrofitErrorResponse and is never decoded into one. */
  datatype TemplatedPipelineErrorResponse =
    TemplatedPipelineErrorResponse(errors: seq<TemplatedPipelineError>, message: string, status: string)

  datatype TemplatedPipelineError = TemplatedPipelineError(
    location: string,
    message: string,
    suggestion: string,
    cause: string,
    severity: string,
    detail: map<string, string>,
    nestedErrors: seq<TemplatedPipelineError>)

  /** The server's handle to a submitted asynchronous operation. */
  datatype TaskRefResponse = TaskRefResponse(ref: string)

  datatype ExecutionStep = ExecutionStep(id: string, name: string, startTime: int, endTime: int, status: string)

  datatype ExecutionVariable = ExecutionVariable(key: string, value: Value)

  /** A snapshot of a task. `endTime > 0` is the completion signal. */
  datatype ExecutionResponse = ExecutionResponse(
    id: string,
    name: string,
    application: string,
    status: string,
    buildTime: int,
    startTime: int,
    endTime: int,
    execution: Value,
    steps: seq<ExecutionStep>,
    variables: seq<ExecutionVariable>)

  /** The typed error a failed execution may carry in its "exception" variable. */
  datatype RetrofitErrorResponse = RetrofitErrorResponse(
    error: string,
    errors: seq<string>,
    kind: string,
    responseBody: string,
    status: int,
    url: string)

  /** A pipeline configuration as the server stores it. The source types
      `Config` as `interface{}`; here it is the type parameter `C`. */
  datatype PipelineConfig<C> = PipelineConfig(
    id: string,
    kind: string,
    name: string,
    application: string,
    description: string,
    executionEngine: string,
    parallel: bool,
    limitConcurrent: bool,
    keepWaitingPipelines: bool,
    stages: seq<map<string, Value>>,
    triggers: seq<map<string, Value>>,
    parameters: seq<map<string, Value>>,
    notifications: seq<map<string, Value>>,
    lastModifiedBy: string,
    config: C,
    updateTs: string)

  datatype ApplicationInfo = ApplicationInfo(name: string)

  /** The variable key under which a failed execution reports its exception. */
  const ExceptionKey: string := "exception"

  /** The value mapstructure leaves in place when there is nothing to decode. */
  const NoDetails: RetrofitErrorResponse := RetrofitErrorResponse("", [], "", "", 0, "")

  // ---------------------------------------------------------------------
  // Decoding a generic value into RetrofitErrorResponse, field by field,
  // the way mapstructure does without weak typing: a missing or null entry
  // leaves the field's zero value, an entry of the wrong kind fails.
  // ---------------------------------------------------------------------

  /** The entry stored under `key`; an absent key reads as null. */
  function Field(fields: map<string, Value>, key: string): Value {
    if key in fields then fields[key] else Null
  }

  predicate IsStringLike(v: Value) {
    v.Null? || v.Str?
  }

  predicate IsStringList(v: Value) {
    v.Null? || (v.Array? && forall i :: 0 <= i < |v.items| ==> IsStringLike(v.items[i]))
  }

  predicate IsIntLike(v: Value) {
    v.Null? || v.Number?
  }

  /** Every tagged field of RetrofitErrorResponse holds a value of its kind. */
  predicate DetailsWellTyped(fields: map<string, Value>) {
    && IsStringLike(Field(fields, "error"))
    && IsStringList(Field(fields, "errors"))
    && IsStringLike(Field(fields, "kind"))
    && IsStringLike(Field(fields, "responseBody"))
    && IsIntLike(Field(fields, "status"))
    && IsStringLike(Field(fields, "url"))
  }

  /** The text a string-like value stands for once decoded. */
  function StringOf(v: Value): string {
    if v.Str? then v.s else ""
  }

  function DecodeString(v: Value): Option<string> {
    match v
    case Null => Some("")
    case Str(s) => Some(s)
    case _ => None
  }

  function DecodeInt(v: Value): Option<int> {
    match v
    case Null => Some(0)
    case Number(n) => Some(n)
    case _ => None
  }

  /** Decodes the elements of a JSON array into a list of strings. */
  function DecodeStringItems(items: seq<Value>): (r: Option<seq<string>>)
    ensures r.Some? <==> forall i :: 0 <= i < |items| ==> IsStringLike(items[i])
    ensures r.Some? ==> |r.value| == |items| && forall i :: 0 <= i < |items| ==> r.value[i] == StringOf(items[i])
  {
    if items == [] then Some([])
    else match DecodeString(items[0])
      case None => None
      case Some(head) =>
        match DecodeStringItems(items[1..])
        case None => None
        case Some(tail) => Some([head] + tail)
  }

  function DecodeStrings(v: Value): Option<seq<string>> {
    match v
    case Null => Some([])
    case Array(items) => DecodeStringItems(items)
    case _ => None
  }

  /** Decodes the `details` entry of an exception variable. */
  function DecodeDetails(v: Value): (r: Option<RetrofitErrorResponse>)
    ensures r.Some? <==> v.Null? || (v.Object? && DetailsWellTyped(v.fields))
    ensures v.Null? ==> r == Some(NoDetails)
  {
    match v
    case Null => Some(NoDetails)
    case Object(fields) =>
      var error := DecodeString(Field(fields, "error"));
      var errors := DecodeStrings(Field(fields, "errors"));
      var kind := DecodeString(Field(fields, "kind"));
      var responseBody := DecodeString(Field(fields, "responseBody"));
      var status := DecodeInt(Field(fields, "status"));
      var url := DecodeString(Field(fields, "url"));
      if error.Some? && errors.Some? && kind.Some? && responseBody.Some? && status.Some? && url.Some?
      then Some(RetrofitErrorResponse(error.value, errors.value, kind.value, responseBody.value, status.value, url.value))
      else None
    case _ => None
  }

  /** The outcome of looking for a structured exception in an execution:
      no "exception" variable, its decoded details, or a value that does not
      decode (the source stops the process at that point). */
  datatype Extraction = NotFound | Found(details: RetrofitErrorResponse) | Undecodable

  /** Decodes the value of an "exception" variable, whose `details` entry
      holds the RetrofitErrorResponse. */
  function DecodeExceptionVariable(v: Value): (r: Extraction)
    ensures r != NotFound
    ensures r.Found? <==> v.Null? || (v.Object? && DecodeDetails(Field(v.fields, "details")).Some?)
  {
    match v
    case Null => Found(NoDetails)
    case Object(fields) =>
      (match DecodeDetails(Field(fields, "details"))
       case Some(d) => Found(d)
       case None => Undecodable)
    case _ => Undecodable
  }

  /** The scan of the variable list, in order, stopping at the first
      variable whose key is "exception". */
  function ScanVariables(vars: seq<ExecutionVariable>): (r: Extraction)
    ensures r == NotFound <==> forall i :: 0 <= i < |vars| ==> vars[i].key != ExceptionKey
  {
    if vars == [] then NotFound
    else if vars[0].key == ExceptionKey then DecodeExceptionVariable(vars[0].value)
    else ScanVariables(vars[1..])
  }

  /** The Retrofit error a finished execution carries, if any. The
      execution is a value: extracting leaves it as it was. */
  function ExtractRetrofitError(e: ExecutionResponse): (r: Extraction)
    ensures r == NotFound <==> forall i :: 0 <= i < |e.variables| ==> e.variables[i].key != ExceptionKey
  {
    ScanVariables(e.variables)
  }

  /** `k` is the position of the first variable with key "exception". */
  predicate IsFirstException(vars: seq<ExecutionVariable>, k: nat) {
    k < |vars| && vars[k].key == ExceptionKey && forall j :: 0 <= j < k ==> vars[j].key != ExceptionKey
  }

  /** The extracted error is the decoding of the first "exception" variable. */
  lemma {:induction false} ExtractDecodesFirstException(e: ExecutionResponse, k: nat)
    requires IsFirstException(e.variables, k)
    ensures ExtractRetrofitError(e) == DecodeExceptionVariable(e.variables[k].value)
  {
    ScanFindsFirst(e.variables, k);
  }

  lemma {:induction false} ScanFindsFirst(vars: seq<ExecutionVariable>, k: nat)
    requires IsFirstException(vars, k)
    ensures ScanVariables(vars) == DecodeExceptionVariable(vars[k].value)
    decreases k
  {
    if k > 0 {
      assert vars[0].key != ExceptionKey;
      ScanFindsFirst(vars[1..], k - 1);
    }
  }

  /** Variables after the first "exception" are never looked at: whatever
      follows it, the result is the same. */
  lemma {:induction false} ExtractIgnoresLaterVariables(e: ExecutionResponse, k: nat, rest: seq<ExecutionVariable>)
    requires IsFirstException(e.variables, k)
    ensures ExtractRetrofitError(e.(variables := e.variables[..k + 1] + rest)) == ExtractRetrofitError(e)
  {
    var vars' := e.variables[..k + 1] + rest;
    assert vars'[k] == e.variables[k];
    ScanFindsFirst(e.variables, k);
    ScanFindsFirst(vars', k);
  }

  /** Of several "exception" variables only the first is decoded: the
      value of a later one can be anything without changing the result. */
  lemma {:induction false} ExtractUsesOnlyFirstOfSeveral(e: ExecutionResponse, i: nat, j: nat, v: Value)
    requires i < j < |e.variables|
    requires e.variables[i].key == ExceptionKey && e.variables[j].key == ExceptionKey
    requires forall l :: 0 <= l < i ==> e.variables[l].key != ExceptionKey
    ensures ExtractRetrofitError(e) == DecodeExceptionVariable(e.variables[i].value)
    ensures ExtractRetrofitError(e.(variables := e.variables[j := ExecutionVariable(ExceptionKey, v)]))
            == ExtractRetrofitError(e)
  {
    var vars' := e.variables[j := ExecutionVariable(ExceptionKey, v)];
    assert IsFirstException(vars', i);
    ScanFindsFirst(e.variables, i);
    ScanFindsFirst(vars', i);
  }

  /** A decoded error carries exactly the values found under the tags
      `error`, `errors`, `kind`, `responseBody`, `status` and `url`. */
  lemma DecodedDetailsMatchTags(fields: map<string, Value>, d: RetrofitErrorResponse)
    requires DecodeDetails(Object(fields)) == Some(d)
    ensures d.error == StringOf(Field(fields, "error"))
    ensures d.errors == (if Field(fields, "errors").Array?
                         then seq(|Field(fields, "errors").items|, i requires 0 <= i < |Field(fields, "errors").items| =>
                                StringOf(Field(fields, "errors").items[i]))
                         else [])
    ensures d.kind == StringOf(Field(fields, "kind"))
    ensures d.responseBody == StringOf(Field(fields, "responseBody"))
    ensures d.status == (if Field(fields, "status").Number? then Field(fields, "status").n else 0)
    ensures d.url == StringOf(Field(fields, "url"))
  {
  }

  // ---------------------------------------------------------------------
  // The inverse direction: what the server would send for a given error.
  // ---------------------------------------------------------------------

  function EncodeStrings(ss: seq<string>): (r: seq<Value>)
    ensures |r| == |ss| && forall i :: 0 <= i < |ss| ==> r[i] == Str(ss[i])
  {
    seq(|ss|, i requires 0 <= i < |ss| => Str(ss[i]))
  }

  function EncodeDetails(d: RetrofitErrorResponse): Value {
    Object(map[
      "error" := Str(d.error),
      "errors" := Array(EncodeStrings(d.errors)),
      "kind" := Str(d.kind),
      "responseBody" := Str(d.responseBody),
      "status" := Number(d.status),
      "url" := Str(d.url)])
  }

  /** The value of an "exception" variable carrying `d` under `details`. */
  function EncodeExceptionVariable(d: RetrofitErrorResponse): Value {
    Object(map["details" := EncodeDetails(d)])
  }

  /** Round trip: a well-formed exception variable decodes to exactly the
      error it carries. */
  lemma ExceptionRoundTrip(d: RetrofitErrorResponse)
    ensures DecodeExceptionVariable(EncodeExceptionVariable(d)) == Found(d)
  {
    var items := EncodeStrings(d.errors);
    var decoded := DecodeStringItems(items);
    assert decoded.Some?;
    assert decoded.value == d.errors;
  }

  /** An execution whose first "exception" variable is well formed yields
      that variable's error. */
  lemma {:induction false} ExtractRoundTrip(e: ExecutionResponse, k: nat, d: RetrofitErrorResponse)
    requires IsFirstException(e.variables, k)
    requires e.variables[k].value == EncodeExceptionVariable(d)
    ensures ExtractRetrofitError(e) == Found(d)
  {
    ScanFindsFirst(e.variables, k);
    ExceptionRoundTrip(d);
  }
}
