/** The two request handlers of the web layer whose logic is more than
    rendering: the test-group form's validation and the edit dispatcher. */
module Views {
  import opened Text
  import opened Values
  import opened Comparator
  import opened Config
  import opened Validation

  // ------------------------------------------------------------ group form

  /** The three errors of the create-group form. */
  datatype GroupProblem = EmptyName | EmptyCreator | EmptySelection

  function GroupMessage(p: GroupProblem): string {
    match p
    case EmptyName => "Test Group Name cannot be empty."
    case EmptyCreator => "Created By cannot be empty."
    case EmptySelection => "At least one test case must be selected for the group."
  }

  /** The three rules of the create-group form. */
  predicate NameGiven(post: Form) requires "group_name" in post {
    Strip(post["group_name"]) != ""
  }

  predicate CreatorGiven(post: Form) {
    "created_by" in post && Strip(post["created_by"]) != ""
  }

  /** The errors for the rules broken, in the order the form checks them.
      `group_name` is read by subscript, so a post without it raises
      KeyError (whose text is the quoted key). `selected` is the parsed test
      case selection, empty when the field was missing or empty. */
  function GroupFormErrors(post: Form, selected: seq<string>): (r: Result<seq<GroupProblem>, string>)
    ensures r.Err? <==> "group_name" !in post
    ensures r.Err? ==> r.error == "'group_name'"
    ensures r.Ok? ==> (r.value == [] <==> NameGiven(post) && CreatorGiven(post) && selected != [])
    ensures r.Ok? ==> (EmptyName in r.value <==> !NameGiven(post))
    ensures r.Ok? ==> (EmptyCreator in r.value <==> !CreatorGiven(post))
    ensures r.Ok? ==> (EmptySelection in r.value <==> selected == [])
    ensures r.Ok? ==> |r.value| == (if NameGiven(post) then 0 else 1) + (if CreatorGiven(post) then 0 else 1)
                                   + (if selected != [] then 0 else 1)
  {
    if "group_name" !in post then Err("'group_name'")
    else Ok(Broken(NameGiven(post), CreatorGiven(post), selected != []))
  }

  /** The problems for the rules that do not hold, in the form's order. */
  function Broken(nameOk: bool, creatorOk: bool, selectionOk: bool): (r: seq<GroupProblem>)
    ensures r == [] <==> nameOk && creatorOk && selectionOk
    ensures EmptyName in r <==> !nameOk
    ensures EmptyCreator in r <==> !creatorOk
    ensures EmptySelection in r <==> !selectionOk
    ensures |r| == (if nameOk then 0 else 1) + (if creatorOk then 0 else 1) + (if selectionOk then 0 else 1)
  {
    (if nameOk then [] else [EmptyName])
    + (if creatorOk then [] else [EmptyCreator])
    + (if selectionOk then [] else [EmptySelection])
  }

  // ------------------------------------------------------- edit dispatcher

  datatype FormKind = AggregationForm | DriftForm | AvailabilityForm

  /** Where the dispatcher redirects: one of the three form pages for the
      stored project, with the test case id as the query string, or back to
      the projects dashboard with an error message. */
  datatype Redirect = ToForm(kind: FormKind, projectId: Option<string>, query: string) | ToDashboard(error: string)

  /** The form page for a normalised test type, if there is one. */
  function FormFor(testType: string): (k: Option<FormKind>)
    ensures k == Some(AggregationForm) <==> testType == AggregationType
    ensures k == Some(DriftForm) <==> testType == "Drift Test"
    ensures k == Some(AvailabilityForm) <==> testType == "Availability Test"
  {
    if testType == AggregationType then Some(AggregationForm)
    else if testType == "Drift Test" then Some(DriftForm)
    else if testType == "Availability Test" then Some(AvailabilityForm)
    else None
  }

  /** `edit_test_case_dispatcher`. A missing (or empty) case goes back with
      "Test case not found."; otherwise the stored type, stripped and
      title-cased, picks the form, and any other type goes back with
      "Unknown test type. Cannot edit.". */
  function EditDispatch(lookup: Option<Form>, testCaseId: string): (r: Redirect)
    ensures (lookup.None? || lookup.value == map[]) ==> r == ToDashboard("Test case not found.")
    ensures r.ToForm? <==>
              lookup.Some? && lookup.value != map[]
              && NormalizedType(Get(lookup.value, "test_type", "")) in {AggregationType, "Drift Test", "Availability Test"}
    ensures r.ToForm? ==> Some(r.kind) == FormFor(NormalizedType(Get(lookup.value, "test_type", "")))
                          && r.query == "?test_case_id=" + testCaseId
                          && r.projectId == (if "project_id" in lookup.value then Some(lookup.value["project_id"]) else None)
    ensures lookup.Some? && lookup.value != map[] && r.ToDashboard? ==> r.error == "Unknown test type. Cannot edit."
  {
    if lookup.None? || lookup.value == map[] then ToDashboard("Test case not found.")
    else
      var row := lookup.value;
      var projectId := if "project_id" in row then Some(row["project_id"]) else None;
      match FormFor(NormalizedType(Get(row, "test_type", "")))
      case Some(kind) => ToForm(kind, projectId, "?test_case_id=" + testCaseId)
      case None => ToDashboard("Unknown test type. Cannot edit.")
  }

  /** An accepted configuration whose type is the stored type normalised
      opens the form of that type. */
  lemma EditableType(row: Form, config: TestConfig, testCaseId: string)
    requires "test_type" in row && config.testType == NormalizedType(row["test_type"])
    requires Acceptable(config)
    ensures EditDispatch(Some(row), testCaseId).ToForm?
    ensures Some(EditDispatch(Some(row), testCaseId).kind) == FormFor(config.testType)
  {
  }

  /** The stored case's validated configuration carries its stored type,
      normalised. */
  lemma ValidatedType(num: Numerics, toInt: string -> Option<int>, row: Form)
    requires "test_type" in row && Validate(num, toInt, row).Ok?
    ensures Validate(num, toInt, row).value.config.testType == NormalizedType(row["test_type"])
  {
    var e := Extract(num, toInt, row);
    assert Validate(num, toInt, row) == Check(e.value);
  }

  /** Every stored case the validator accepts can be edited: the dispatcher
      normalises the stored type as the validator does and opens the form of
      the validated type. */
  lemma AcceptedCaseIsEditable(num: Numerics, toInt: string -> Option<int>, row: Form, testCaseId: string)
    requires "test_type" in row
    requires Validate(num, toInt, row).Ok? && Validate(num, toInt, row).value.errors == []
    ensures EditDispatch(Some(row), testCaseId).ToForm?
    ensures Some(EditDispatch(Some(row), testCaseId).kind) == FormFor(Validate(num, toInt, row).value.config.testType)
  {
    ValidatedType(num, toInt, row);
    EditableType(row, Validate(num, toInt, row).value.config, testCaseId);
  }
}
