/** The Projects V2 methods of the internal GitHub client
    (internal/github/project.go): guard clauses on their arguments, one
    GraphQL request, and an ordered classification of the upstream error.
    The GraphQL client is an oracle answering each request; every method
    reports the request it sent, if any. */
module ProjectClient {
  import opened Wrappers
  import opened Strings

  /** A project as the API returns it; only its node ID is modelled. */
  datatype ProjectV2 = ProjectV2(id: string)

  /** The input of the createProjectV2 mutation: pointer fields are `Option`s. */
  datatype CreateProjectV2Input = CreateProjectV2Input(
    ownerId: string, title: string, description: Option<string>, public: Option<bool>, repositoryId: Option<string>)

  /** The requests the client sends. */
  datatype ClientRequest =
    | CreateMutation(input: CreateProjectV2Input)
    | ProjectQuery(login: string, number: int)
    | DeleteItemMutation(projectId: string, itemId: string)
    | AddItemMutation(projectId: string, contentId: string)
    | UpdateItemMutation(projectId: string, itemId: string, fieldId: string, value: string)

  /** The GraphQL client as an oracle: the created project, the queried
      project (nil when the user has none of that number), and the errors of
      the item mutations. */
  datatype Api = Api(
    create: CreateProjectV2Input -> Result<ProjectV2>,
    get: (string, int) -> Result<Option<ProjectV2>>,
    deleteItem: (string, string) -> Option<string>,
    addItem: (string, string) -> Option<string>,
    updateItem: (string, string, string, string) -> Option<string>)

  /** A method's result together with the request it sent, if any. */
  datatype Exchange<T> = Exchange(result: Result<T>, sent: Option<ClientRequest>)

  // ---------------------------------------------------------------------
  // Classification of upstream errors
  // ---------------------------------------------------------------------

  /** The upstream error kinds the methods recognise. */
  datatype Upstream = NotFound | Forbidden | Invalid

  /** The tests of every method, in order: NOT_FOUND before FORBIDDEN. */
  const AccessRules: seq<(seq<string>, Upstream)> := [(["NOT_FOUND"], NotFound), (["FORBIDDEN"], Forbidden)]

  /** The tests of UpdateProjectV2Item: INVALID only after the other two. */
  const UpdateRules: seq<(seq<string>, Upstream)> := AccessRules + [(["INVALID"], Invalid)]

  /** The `strings.Contains` chain of CreateProjectV2, GetProjectV2,
      DeleteProjectV2Item and AddProjectV2Item. */
  function AccessFailure(msg: string): Option<Upstream>
  {
    if Contains(msg, "NOT_FOUND") then Some(NotFound)
    else if Contains(msg, "FORBIDDEN") then Some(Forbidden)
    else None
  }

  /** The `strings.Contains` chain of UpdateProjectV2Item. */
  function UpdateFailure(msg: string): Option<Upstream>
  {
    if Contains(msg, "NOT_FOUND") then Some(NotFound)
    else if Contains(msg, "FORBIDDEN") then Some(Forbidden)
    else if Contains(msg, "INVALID") then Some(Invalid)
    else None
  }

  /** Both chains are the first-match reading of their rule tables. */
  lemma FailuresAreFirstMatch(msg: string)
    ensures AccessFailure(msg) == FirstMatch(AccessRules, msg)
    ensures UpdateFailure(msg) == FirstMatch(UpdateRules, msg)
  {
    MentionsAnyCons(msg, "NOT_FOUND", []);
    MentionsAnyCons(msg, "FORBIDDEN", []);
    MentionsAnyCons(msg, "INVALID", []);
    assert !MentionsAny(msg, []);
    assert ["NOT_FOUND"] == ["NOT_FOUND"] + [];
    assert ["FORBIDDEN"] == ["FORBIDDEN"] + [];
    assert ["INVALID"] == ["INVALID"] + [];
    var a := AccessRules;
    assert a[1..][1..] == [];
    var u := UpdateRules;
    assert u[1..][1..][1..] == [];
    assert FirstMatch(u[1..][1..], msg) == if Contains(msg, "INVALID") then Some(Invalid) else None;
  }

  // ---------------------------------------------------------------------
  // CreateProjectV2
  // ---------------------------------------------------------------------

  /** The mutation input: the owner login is passed as the owner ID, the
      description only when non-empty, the visibility always, and no
      repository. */
  function NewCreateProjectV2Input(owner: string, title: string, description: string, public: bool): (input: CreateProjectV2Input)
    ensures input.ownerId == owner && input.title == title
    ensures input.description.Some? <==> description != ""
    ensures input.description.Some? ==> input.description.value == description
    ensures input.public == Some(public) && input.repositoryId == None
  {
    var input := CreateProjectV2Input(owner, title, None, None, None);
    var input := if description != "" then input.(description := Some(description)) else input;
    input.(public := Some(public))
  }

  function CreateFailureText(owner: string, msg: string): string
  {
    match AccessFailure(msg)
    case Some(NotFound) => "owner " + owner + " not found"
    case Some(Forbidden) => "insufficient permissions to create project for " + owner
    case _ => "failed to create project: " + msg
  }

  /** `(*Client).CreateProjectV2`: the owner, then the title, must be
      non-empty before the mutation is sent. */
  function CreateProjectV2(api: Api, owner: string, title: string, description: string, public: bool): (r: Exchange<ProjectV2>)
    ensures r.sent.Some? <==> owner != "" && title != ""
    ensures owner == "" ==> r.result == Err("owner cannot be empty")
    ensures owner != "" && title == "" ==> r.result == Err("title cannot be empty")
    ensures r.sent.Some? ==> r.sent.value == CreateMutation(NewCreateProjectV2Input(owner, title, description, public))
    ensures r.sent.Some? && r.result.Ok? ==> r.result == api.create(r.sent.value.input)
    ensures r.sent.Some? && r.result.Err? ==> api.create(r.sent.value.input).Err?
    ensures r.sent.Some? && api.create(r.sent.value.input).Err? ==>
              r.result == Err(CreateFailureText(owner, api.create(r.sent.value.input).msg))
  {
    if owner == "" then Exchange(Err("owner cannot be empty"), None)
    else if title == "" then Exchange(Err("title cannot be empty"), None)
    else
      var input := NewCreateProjectV2Input(owner, title, description, public);
      match api.create(input)
      case Err(e) => Exchange(Err(CreateFailureText(owner, e)), Some(CreateMutation(input)))
      case Ok(p) => Exchange(Ok(p), Some(CreateMutation(input)))
  }

  // ---------------------------------------------------------------------
  // GetProjectV2
  // ---------------------------------------------------------------------

  function GetFailureText(owner: string, number: int, msg: string): string
  {
    match AccessFailure(msg)
    case Some(NotFound) => "project " + FormatInt(number) + " not found for owner " + owner
    case Some(Forbidden) => "insufficient permissions to view project " + FormatInt(number) + " for " + owner
    case _ => "failed to get project: " + msg
  }

  /** `(*Client).GetProjectV2`: a non-empty owner and a positive number are
      required before the query; a query that finds no project is an error
      too. */
  function GetProjectV2(api: Api, owner: string, number: int): (r: Exchange<ProjectV2>)
    ensures r.sent.Some? <==> owner != "" && number > 0
    ensures owner == "" ==> r.result == Err("owner cannot be empty")
    ensures owner != "" && number <= 0 ==> r.result == Err("project number must be positive")
    ensures r.sent.Some? ==> r.sent.value == ProjectQuery(owner, number)
    ensures r.sent.Some? && api.get(owner, number) == Ok(None) ==>
              r.result == Err("project " + FormatInt(number) + " not found for user " + owner)
    ensures r.result.Ok? <==> r.sent.Some? && api.get(owner, number).Ok? && api.get(owner, number).value.Some?
    ensures r.result.Ok? ==> r.result.value == api.get(owner, number).value.value
    ensures r.sent.Some? && api.get(owner, number).Err? ==>
              r.result == Err(GetFailureText(owner, number, api.get(owner, number).msg))
  {
    if owner == "" then Exchange(Err("owner cannot be empty"), None)
    else if number <= 0 then Exchange(Err("project number must be positive"), None)
    else
      var sent := Some(ProjectQuery(owner, number));
      match api.get(owner, number)
      case Err(e) => Exchange(Err(GetFailureText(owner, number, e)), sent)
      case Ok(None) => Exchange(Err("project " + FormatInt(number) + " not found for user " + owner), sent)
      case Ok(Some(p)) => Exchange(Ok(p), sent)
  }

  // ---------------------------------------------------------------------
  // The item mutations
  // ---------------------------------------------------------------------

  function DeleteFailureText(projectId: string, itemId: string, msg: string): string
  {
    match AccessFailure(msg)
    case Some(NotFound) => "project item not found. Project ID: " + projectId + ", Item ID: " + itemId
    case Some(Forbidden) => "insufficient permissions to delete project item"
    case _ => "failed to delete project item: " + msg
  }

  /** `(*Client).DeleteProjectV2Item`: the project ID, then the item ID, must
      be non-empty before the mutation is sent. */
  function DeleteProjectV2Item(api: Api, projectId: string, itemId: string): (r: Exchange<()>)
    ensures r.sent.Some? <==> projectId != "" && itemId != ""
    ensures projectId == "" ==> r.result == Err("project ID cannot be empty")
    ensures projectId != "" && itemId == "" ==> r.result == Err("item ID cannot be empty")
    ensures r.sent.Some? ==> r.sent.value == DeleteItemMutation(projectId, itemId)
    ensures r.sent.Some? ==> (r.result.Ok? <==> api.deleteItem(projectId, itemId).None?)
    ensures r.sent.Some? && api.deleteItem(projectId, itemId).Some? ==>
              r.result == Err(DeleteFailureText(projectId, itemId, api.deleteItem(projectId, itemId).value))
  {
    if projectId == "" then Exchange(Err("project ID cannot be empty"), None)
    else if itemId == "" then Exchange(Err("item ID cannot be empty"), None)
    else
      var sent := Some(DeleteItemMutation(projectId, itemId));
      match api.deleteItem(projectId, itemId)
      case Some(e) => Exchange(Err(DeleteFailureText(projectId, itemId, e)), sent)
      case None => Exchange(Ok(()), sent)
  }

  function AddFailureText(projectId: string, contentId: string, msg: string): string
  {
    match AccessFailure(msg)
    case Some(NotFound) => "project or content not found. Project ID: " + projectId + ", Content ID: " + contentId
    case Some(Forbidden) => "insufficient permissions to add item to project"
    case _ => "failed to add project item: " + msg
  }

  /** `(*Client).AddProjectV2Item`: the project ID, then the content ID, must
      be non-empty before the mutation is sent. */
  function AddProjectV2Item(api: Api, projectId: string, contentId: string): (r: Exchange<()>)
    ensures r.sent.Some? <==> projectId != "" && contentId != ""
    ensures projectId == "" ==> r.result == Err("project ID cannot be empty")
    ensures projectId != "" && contentId == "" ==> r.result == Err("content ID cannot be empty")
    ensures r.sent.Some? ==> r.sent.value == AddItemMutation(projectId, contentId)
    ensures r.sent.Some? ==> (r.result.Ok? <==> api.addItem(projectId, contentId).None?)
    ensures r.sent.Some? && api.addItem(projectId, contentId).Some? ==>
              r.result == Err(AddFailureText(projectId, contentId, api.addItem(projectId, contentId).value))
  {
    if projectId == "" then Exchange(Err("project ID cannot be empty"), None)
    else if contentId == "" then Exchange(Err("content ID cannot be empty"), None)
    else
      var sent := Some(AddItemMutation(projectId, contentId));
      match api.addItem(projectId, contentId)
      case Some(e) => Exchange(Err(AddFailureText(projectId, contentId, e)), sent)
      case None => Exchange(Ok(()), sent)
  }

  function UpdateFailureText(projectId: string, itemId: string, fieldId: string, value: string, msg: string): string
  {
    match UpdateFailure(msg)
    case Some(NotFound) =>
      "project item or field not found. Project ID: " + projectId + ", Item ID: " + itemId + ", Field ID: " + fieldId
    case Some(Forbidden) => "insufficient permissions to update project item"
    case Some(Invalid) => "invalid value for field. Value: " + value
    case None => "failed to update project item: " + msg
  }

  /** `(*Client).UpdateProjectV2Item`: the project, item and field IDs must be
      non-empty, in that order; the value may be empty. */
  function UpdateProjectV2Item(api: Api, projectId: string, itemId: string, fieldId: string, value: string): (r: Exchange<()>)
    ensures r.sent.Some? <==> projectId != "" && itemId != "" && fieldId != ""
    ensures projectId == "" ==> r.result == Err("project ID cannot be empty")
    ensures projectId != "" && itemId == "" ==> r.result == Err("item ID cannot be empty")
    ensures projectId != "" && itemId != "" && fieldId == "" ==> r.result == Err("field ID cannot be empty")
    ensures r.sent.Some? ==> r.sent.value == UpdateItemMutation(projectId, itemId, fieldId, value)
    ensures r.sent.Some? ==> (r.result.Ok? <==> api.updateItem(projectId, itemId, fieldId, value).None?)
    ensures r.sent.Some? && api.updateItem(projectId, itemId, fieldId, value).Some? ==>
              r.result == Err(UpdateFailureText(projectId, itemId, fieldId, value,
                                                api.updateItem(projectId, itemId, fieldId, value).value))
  {
    if projectId == "" then Exchange(Err("project ID cannot be empty"), None)
    else if itemId == "" then Exchange(Err("item ID cannot be empty"), None)
    else if fieldId == "" then Exchange(Err("field ID cannot be empty"), None)
    else
      var sent := Some(UpdateItemMutation(projectId, itemId, fieldId, value));
      match api.updateItem(projectId, itemId, fieldId, value)
      case Some(e) => Exchange(Err(UpdateFailureText(projectId, itemId, fieldId, value, e)), sent)
      case None => Exchange(Ok(()), sent)
  }

  // ---------------------------------------------------------------------
  // Properties across the methods
  // ---------------------------------------------------------------------

  /** An upstream error that mentions both NOT_FOUND and FORBIDDEN is reported
      as not-found by every method. */
  lemma NotFoundBeforeForbidden(a: string, b: string, c: string, owner: string, number: int,
                                projectId: string, itemId: string, fieldId: string, value: string)
    ensures var msg := a + "NOT_FOUND" + b + "FORBIDDEN" + c;
            && CreateFailureText(owner, msg) == "owner " + owner + " not found"
            && GetFailureText(owner, number, msg) == "project " + FormatInt(number) + " not found for owner " + owner
            && DeleteFailureText(projectId, itemId, msg) ==
                 "project item not found. Project ID: " + projectId + ", Item ID: " + itemId
            && AddFailureText(projectId, itemId, msg) ==
                 "project or content not found. Project ID: " + projectId + ", Content ID: " + itemId
            && UpdateFailureText(projectId, itemId, fieldId, value, msg) ==
                 "project item or field not found. Project ID: " + projectId + ", Item ID: " + itemId + ", Field ID: " + fieldId
  {
    var msg := a + "NOT_FOUND" + b + "FORBIDDEN" + c;
    assert msg == a + "NOT_FOUND" + (b + "FORBIDDEN" + c);
    ContainsInfix(a, "NOT_FOUND", b + "FORBIDDEN" + c);
  }

  /** UpdateProjectV2Item reports an invalid value only for errors that
      mention neither NOT_FOUND nor FORBIDDEN, and wraps every unmatched error. */
  lemma InvalidOnlyAfterAccessChecks(projectId: string, itemId: string, fieldId: string, value: string, msg: string)
    ensures UpdateFailure(msg) == Some(Invalid) <==>
              !Contains(msg, "NOT_FOUND") && !Contains(msg, "FORBIDDEN") && Contains(msg, "INVALID")
    ensures UpdateFailure(msg) == Some(Invalid) ==>
              UpdateFailureText(projectId, itemId, fieldId, value, msg) == "invalid value for field. Value: " + value
    ensures UpdateFailure(msg).None? ==>
              UpdateFailureText(projectId, itemId, fieldId, value, msg) == "failed to update project item: " + msg
  {
  }

  /** Validation failures never reach the API, whatever it would answer. */
  lemma GuardsPrecedeRequests(api1: Api, api2: Api, owner: string, title: string, description: string, public: bool,
                              number: int, projectId: string, itemId: string, fieldId: string, value: string)
    ensures owner == "" || title == "" ==>
              CreateProjectV2(api1, owner, title, description, public) == CreateProjectV2(api2, owner, title, description, public)
    ensures owner == "" || number <= 0 ==> GetProjectV2(api1, owner, number) == GetProjectV2(api2, owner, number)
    ensures projectId == "" || itemId == "" ==>
              DeleteProjectV2Item(api1, projectId, itemId) == DeleteProjectV2Item(api2, projectId, itemId)
              && AddProjectV2Item(api1, projectId, itemId) == AddProjectV2Item(api2, projectId, itemId)
    ensures projectId == "" || itemId == "" || fieldId == "" ==>
              UpdateProjectV2Item(api1, projectId, itemId, fieldId, value) == UpdateProjectV2Item(api2, projectId, itemId, fieldId, value)
  {
  }
}
