/** One ad-hoc run of a stored test case: look the case up, validate its
    stored fields exactly as the form would be validated, process it, and map
    the outcome to an HTTP status code. */
module AdhocRun {
  import opened Text
  import opened Values
  import opened Comparator
  import opened Config
  import opened Processor
  import opened Validation

  /** What the project lookup found: the project, no such project (which is
      tolerated), or an unexpected exception. */
  datatype ProjectLookup = Found(name: string, criticality: Option<string>) | Absent | Fault(error: string)

  /** The part of the result dictionary the run decides. */
  datatype AdhocResult = AdhocResult(
    status: Status,
    message: string,
    statusCode: int,
    details: seq<string>,
    projectName: Option<string>,
    processed: Option<TestResult>)

  /** An absent lookup and an empty row are both falsy. */
  predicate NotFound(lookup: Option<Form>) {
    lookup.None? || lookup.value == map[]
  }

  /** The project is looked up only when the stored project id is truthy. */
  function ProjectOf(form: Form, project: ProjectLookup): Result<Option<string>, string> {
    if Get(form, "project_id", "") == "" then Ok(None)
    else
      match project
      case Found(name, _) => Ok(Some(name))
      case Absent => Ok(None)
      case Fault(e) => Err(e)
  }

  const ExceptionPrefix := "Exception: "
  const ValidationPrefix := "Validation error: "
  const NotFoundMessage := "Test case not found."

  /** The initial result: ERROR, "Test execution failed.", code 500. */
  function Failed(message: string, projectName: Option<string>): (r: AdhocResult)
    ensures r.status == Error && r.statusCode == 500 && r.processed.None? && r.message == message
  {
    AdhocResult(Error, message, 500, [], projectName, None)
  }

  /** The run after the lookup succeeded, given what the project lookup
      and the validator produced: the first exception raised ends the run
      with its text, validation errors end it with their messages, and
      otherwise the processor's result is the answer. */
  function Respond(projectName: Result<Option<string>, string>, validated: Result<Validation, string>,
                   process: TestConfig -> TestResult): (r: AdhocResult)
    ensures r.statusCode in {200, 500}
    ensures r.statusCode == 200 <==> r.status == Pass
    ensures r.processed.Some? <==> projectName.Ok? && validated.Ok? && validated.value.errors == []
    ensures r.processed.Some? ==>
              r.processed.value == process(validated.value.config)
              && r.status == r.processed.value.status && r.message == r.processed.value.message
    ensures r.processed.None? ==> r.status == Error
    ensures projectName.Err? ==> r.message == ExceptionPrefix + projectName.error
    ensures projectName.Ok? && validated.Err? ==> r.message == ExceptionPrefix + validated.error
    ensures projectName.Ok? && validated.Ok? && validated.value.errors != [] ==>
              r.details == Messages(validated.value.errors) && r.message == ValidationPrefix + Join(r.details, "; ")
    ensures r.details != [] ==> projectName.Ok? && validated.Ok? && validated.value.errors != []
  {
    match projectName
    case Err(e) => Failed(ExceptionPrefix + e, None)
    case Ok(name) =>
      match validated
      case Err(e) => Failed(ExceptionPrefix + e, name)
      case Ok(v) =>
        if v.errors != [] then
          AdhocResult(Error, ValidationPrefix + Join(Messages(v.errors), "; "), 500, Messages(v.errors), name, None)
        else
          var t := process(v.config);
          AdhocResult(t.status, t.message, if t.status == Pass then 200 else 500, [], name, Some(t))
  }

  /** `run_adhoc_test_logic`. A missing test case is the only 404; a run
      answers 200 exactly when it passed; a processed run always rests on a
      configuration the validator accepted, and its result is the
      processor's. */
  function RunAdhoc(num: Numerics, toInt: string -> Option<int>, process: TestConfig -> TestResult,
                    lookup: Option<Form>, project: ProjectLookup): (r: AdhocResult)
    ensures r.statusCode in {200, 404, 500}
    ensures r.statusCode == 404 <==> NotFound(lookup)
    ensures NotFound(lookup) ==> r.status == Error && r.message == NotFoundMessage
    ensures r.statusCode == 200 <==> r.status == Pass
    ensures r.processed.Some? ==>
              !NotFound(lookup)
              && Validate(num, toInt, lookup.value).Ok?
              && Acceptable(Validate(num, toInt, lookup.value).value.config)
              && r.processed.value == process(Validate(num, toInt, lookup.value).value.config)
  {
    if NotFound(lookup) then AdhocResult(Error, NotFoundMessage, 404, [], None, None)
    else Respond(ProjectOf(lookup.value, project), Validate(num, toInt, lookup.value), process)
  }

  /** With the real processor, an ad-hoc run answering 200 passed on a
      present source value and with status and outcome agreeing. */
  lemma SuccessfulRunHasSourceValue(num: Numerics, toInt: string -> Option<int>, b: Backends, lookup: Option<Form>, project: ProjectLookup)
    requires RunAdhoc(num, toInt, c => Process(num, b, c), lookup, project).statusCode == 200
    ensures RunAdhoc(num, toInt, c => Process(num, b, c), lookup, project).processed.Some?
    ensures !RunAdhoc(num, toInt, c => Process(num, b, c), lookup, project).processed.value.sourceValue.Null?
    ensures RunAdhoc(num, toInt, c => Process(num, b, c), lookup, project).processed.value.outcome == Pass
  {
    var r := RunAdhoc(num, toInt, c => Process(num, b, c), lookup, project);
    var config := Validate(num, toInt, lookup.value).value.config;
    assert r.processed.value == Process(num, b, config);
  }
}
