/** The Projects V2 tool handlers of pkg/github/projects.go. The GitHub
    clients are oracles: a GraphQL query or mutation is answered by a function
    of the request, and every handler reports, beside its reply, the requests
    it sent, in order. */
module ProjectTools {
  import opened Wrappers
  import opened Strings
  import opened Params

  // ---------------------------------------------------------------------
  // Replies and remote calls
  // ---------------------------------------------------------------------

  /** `*mcp.CallToolResult` as `mcp.NewToolResultText` (isError false) and
      `mcp.NewToolResultError` (isError true) build it. */
  datatype CallToolResult = CallToolResult(text: string, isError: bool)

  /** What a handler returns: a tool result with a nil error, or a Go error
      with a nil result. */
  datatype Reply = Returned(result: CallToolResult) | GoError(err: string)

  /** `getClient(ctx)`: an error, or the clients, of which the REST one may be nil. */
  datatype ClientSet = ClientsFailed(err: string) | Clients(hasRest: bool)

  /** The input of the createProjectV2 mutation as the handler's local
      `createProjectV2Input` struct holds it. */
  datatype CreateInput = CreateInput(ownerId: string, title: string, shortDescription: string, public: bool)

  datatype Query = ViewerQuery | UserQuery(login: string) | OrganizationQuery(login: string)

  datatype Mutation =
    | CreateProject(input: CreateInput)
    | AddItem(projectId: string, contentId: string)
    | UpdateItem(projectId: string, itemId: string, fieldId: string, value: string)
    | DeleteItem(projectId: string, itemId: string)

  /** A request sent to the GraphQL API. */
  datatype Request = Queried(q: Query) | Mutated(m: Mutation)

  /** The answer to a query: its error, and the `ID` and `Login` fields decoded
      (empty when the response lacks them). */
  datatype QueryReply = QueryReply(err: Option<string>, id: string, login: string)

  /** The answer to a mutation: its error, or the decoded payload as
      `json.Marshal` renders it. */
  datatype MutationReply = MutationFailed(err: string) | MutationDone(json: string)

  /** The GraphQL client as an oracle. */
  datatype GraphQL = GraphQL(query: Query -> QueryReply, mutate: Mutation -> MutationReply)

  /** A handler's reply together with the requests it sent. */
  datatype Handled = Handled(reply: Reply, sent: seq<Request>)

  function ToolText(text: string): Reply { Returned(CallToolResult(text, false)) }

  function ToolError(text: string): Reply { Returned(CallToolResult(text, true)) }

  // ---------------------------------------------------------------------
  // GetProjectV2 (the stub)
  // ---------------------------------------------------------------------

  const GetProjectV2Text: string :=
    "{\"message\":\"GetProjectV2 handler executed, skipping actual API call.\"}"

  /** The GetProjectV2 handler: it never calls GitHub and always answers with
      the same text. */
  function GetProjectV2(args: Arguments): (h: Handled)
    ensures h.sent == [] && h.reply.Returned? && !h.reply.result.isError
    ensures h.reply.result.text == GetProjectV2Text
  {
    Handled(ToolText(GetProjectV2Text), [])
  }

  /** The stub ignores its arguments entirely. */
  lemma GetProjectV2IgnoresArguments(a: Arguments, b: Arguments)
    ensures GetProjectV2(a) == GetProjectV2(b)
  {
  }

  // ---------------------------------------------------------------------
  // CreateProjectV2: arguments
  // ---------------------------------------------------------------------

  const DefaultOwner: string := "manian0430"
  const DefaultTitle: string := "Test Project from MCP Tool"

  /** The four arguments of CreateProjectV2 after defaulting. */
  datatype Settings = Settings(owner: string, title: string, description: string, public: bool)

  /** The string under `key` when it is present and a Go string, else `d`. */
  function StringOr(args: Arguments, key: string, d: string): string
  {
    if key in args && args[key].Str? then args[key].s else d
  }

  /** The bool under `key` when it is present and a Go bool, else `d`. */
  function BoolOr(args: Arguments, key: string, d: bool): bool
  {
    if key in args && args[key].Bool? then args[key].b else d
  }

  /** The arguments CreateProjectV2 uses: each default is replaced only by a
      present value of exactly the expected Go type. */
  function SettingsOf(args: Arguments): Settings
  {
    Settings(StringOr(args, "owner", DefaultOwner), StringOr(args, "title", DefaultTitle),
             StringOr(args, "description", ""), BoolOr(args, "public", false))
  }

  /** Against `OptionalParamOK`: an argument is taken exactly when that helper
      would report it present and well typed; a wrong-typed argument, which
      the helper reports as an error, silently keeps the default here. */
  lemma SettingsAgreeWithOptionalParamOK(args: Arguments, key: string, d: string, e: bool)
    ensures var b := OptionalParamOK(args, key, KString);
            StringOr(args, key, d) == if b.ok && b.err.None? then b.value.s else d
    ensures var b := OptionalParamOK(args, key, KBool);
            BoolOr(args, key, e) == if b.ok && b.err.None? then b.value.b else e
    ensures key in args && !args[key].Str? ==>
              StringOr(args, key, d) == d && OptionalParamOK(args, key, KString).err.Some?
  {
  }

  // ---------------------------------------------------------------------
  // CreateProjectV2: owner resolution
  // ---------------------------------------------------------------------

  /** The owner's node ID, or the text of the tool error that ends the
      handler, together with the queries sent. */
  datatype Resolution = Resolution(ownerId: Result<string>, sent: seq<Request>)

  /** The three lookups, in the only order they can be sent. */
  function Lookups(owner: string): seq<Request>
  {
    [Queried(ViewerQuery), Queried(UserQuery(owner)), Queried(OrganizationQuery(owner))]
  }

  function ViewerFailedText(err: string): string { "Error querying authenticated user: " + err }

  function OrganizationFailedText(owner: string): string { "Could not find user or organization with login: " + owner }

  function NoOwnerIdText(owner: string): string { "Could not find ID for user or organization: " + owner }

  /** Owner resolution: the viewer first; the viewer's ID when the owner is
      the viewer; otherwise the user of that login when the lookup succeeds
      with an ID, and only failing that the organization. */
  function ResolveOwner(owner: string, query: Query -> QueryReply): (r: Resolution)
    ensures 1 <= |r.sent| && r.sent <= Lookups(owner)
    ensures r.ownerId.Ok? ==> r.ownerId.value == query(r.sent[|r.sent| - 1].q).id
  {
    var viewer := query(ViewerQuery);
    if viewer.err.Some? then
      Resolution(Err(ViewerFailedText(viewer.err.value)), Lookups(owner)[..1])
    else if viewer.login == owner then
      Resolution(Ok(viewer.id), Lookups(owner)[..1])
    else
      var user := query(UserQuery(owner));
      if user.err.None? && user.id != "" then
        Resolution(Ok(user.id), Lookups(owner)[..2])
      else
        var org := query(OrganizationQuery(owner));
        if org.err.Some? then Resolution(Err(OrganizationFailedText(owner)), Lookups(owner))
        else if org.id == "" then Resolution(Err(NoOwnerIdText(owner)), Lookups(owner))
        else Resolution(Ok(org.id), Lookups(owner))
  }

  /** A failed viewer query ends resolution before any lookup. */
  lemma ViewerFailureStopsResolution(owner: string, query: Query -> QueryReply)
    requires query(ViewerQuery).err.Some?
    ensures ResolveOwner(owner, query) ==
              Resolution(Err(ViewerFailedText(query(ViewerQuery).err.value)), [Queried(ViewerQuery)])
  {
  }

  /** The viewer's own login needs no lookup: the viewer's ID is used. */
  lemma ViewerOwnsWithoutLookup(owner: string, query: Query -> QueryReply)
    requires query(ViewerQuery).err.None? && query(ViewerQuery).login == owner
    ensures ResolveOwner(owner, query) == Resolution(Ok(query(ViewerQuery).id), [Queried(ViewerQuery)])
  {
  }

  /** The user lookup takes precedence: when it succeeds with an ID, the
      organization is never asked. */
  lemma UserBeforeOrganization(owner: string, query: Query -> QueryReply)
    requires query(ViewerQuery).err.None? && query(ViewerQuery).login != owner
    requires query(UserQuery(owner)).err.None? && query(UserQuery(owner)).id != ""
    ensures ResolveOwner(owner, query) ==
              Resolution(Ok(query(UserQuery(owner)).id), [Queried(ViewerQuery), Queried(UserQuery(owner))])
  {
  }

  /** The organization is asked exactly when the viewer answered with another
      login and the user lookup failed or gave no ID; its answer then decides. */
  lemma OrganizationFallback(owner: string, query: Query -> QueryReply)
    ensures var r := ResolveOwner(owner, query);
            r.sent == Lookups(owner) <==>
              query(ViewerQuery).err.None? && query(ViewerQuery).login != owner
              && (query(UserQuery(owner)).err.Some? || query(UserQuery(owner)).id == "")
    ensures var r := ResolveOwner(owner, query);
            var org := query(OrganizationQuery(owner));
            r.sent == Lookups(owner) ==>
              r.ownerId == if org.err.Some? then Err(OrganizationFailedText(owner))
                           else if org.id == "" then Err(NoOwnerIdText(owner))
                           else Ok(org.id)
  {
  }

  // ---------------------------------------------------------------------
  // CreateProjectV2: the mutation and its errors
  // ---------------------------------------------------------------------

  /** The mutation input: `ShortDescription` is assigned only when the
      description is non-empty (leaving the zero string otherwise) and
      `Public` always. */
  function NewCreateInput(ownerId: string, title: string, description: string, public: bool): (input: CreateInput)
    ensures input.ownerId == ownerId && input.title == title && input.public == public
    ensures input.shortDescription == description
  {
    var input := CreateInput(ownerId, title, "", false);
    var input := if description != "" then input.(shortDescription := description) else input;
    input.(public := public)
  }

  /** The keys the input's JSON encoding carries: both optional fields are
      tagged `omitempty`, so an empty description and a `false` public flag
      are not sent at all. */
  function InputKeys(input: CreateInput): (keys: seq<string>)
    ensures "ownerId" in keys && "title" in keys
    ensures "shortDescription" in keys <==> input.shortDescription != ""
    ensures "public" in keys <==> input.public
  {
    ["ownerId", "title"]
    + (if input.shortDescription != "" then ["shortDescription"] else [])
    + (if input.public then ["public"] else [])
  }

  /** The kinds of mutation error the handler recognises. */
  datatype CreateFailure = Unauthorized | UnresolvedOwner | NetworkTrouble

  /** The handler's tests, in order; the first that matches wins. */
  const CreateRules: seq<(seq<string>, CreateFailure)> :=
    [(["401", "Unauthorized"], Unauthorized), (["could not resolve"], UnresolvedOwner),
     (["timeout", "TLS"], NetworkTrouble)]

  /** The handler's chain of `strings.Contains` tests on the mutation error. */
  function ClassifyCreateError(msg: string): Option<CreateFailure>
  {
    if Contains(msg, "401") || Contains(msg, "Unauthorized") then Some(Unauthorized)
    else if Contains(msg, "could not resolve") then Some(UnresolvedOwner)
    else if Contains(msg, "timeout") || Contains(msg, "TLS") then Some(NetworkTrouble)
    else None
  }

  /** The chain is the first-match reading of its rule table. */
  lemma ClassifyCreateErrorIsFirstMatch(msg: string)
    ensures ClassifyCreateError(msg) == FirstMatch(CreateRules, msg)
  {
    MentionsAnyCons(msg, "401", ["Unauthorized"]);
    MentionsAnyCons(msg, "Unauthorized", []);
    MentionsAnyCons(msg, "could not resolve", []);
    MentionsAnyCons(msg, "timeout", ["TLS"]);
    MentionsAnyCons(msg, "TLS", []);
    assert !MentionsAny(msg, []);
    assert ["401", "Unauthorized"] == ["401"] + ["Unauthorized"];
    assert ["Unauthorized"] == ["Unauthorized"] + [];
    assert ["could not resolve"] == ["could not resolve"] + [];
    assert ["timeout", "TLS"] == ["timeout"] + ["TLS"];
    assert ["TLS"] == ["TLS"] + [];
    var rules := CreateRules;
    assert rules[1..][1..][1..] == [];
    assert FirstMatch(rules[1..][1..], msg) ==
             if Contains(msg, "timeout") || Contains(msg, "TLS") then Some(NetworkTrouble) else None;
    assert FirstMatch(rules[1..], msg) ==
             if Contains(msg, "could not resolve") then Some(UnresolvedOwner) else FirstMatch(rules[1..][1..], msg);
  }

  const FallbackNote: string := ". Attempting REST API fallback..."

  /** The opening of the tool-error text for each recognised kind of failure. */
  function FailurePrefix(f: CreateFailure): string
  {
    match f
    case Unauthorized => "Authorization error - please check your token has 'project' scope: "
    case UnresolvedOwner => "Invalid owner ID or login. Please check the owner exists: "
    case NetworkTrouble => "Network connection error to GitHub API: "
  }

  /** The opening of the tool-error text for an unrecognised failure. */
  function GenericPrefix(): string { "Error creating project: " }

  /** The tool-error text for a failed createProjectV2 mutation: every text
      carries the GraphQL error, after the prefix of its kind. */
  function CreateErrorText(msg: string, hasRest: bool): (text: string)
    ensures ClassifyCreateError(msg).Some? ==> text == FailurePrefix(ClassifyCreateError(msg).value) + msg
    ensures ClassifyCreateError(msg).None? ==> text == GenericPrefix() + msg + (if hasRest then FallbackNote else "")
  {
    match ClassifyCreateError(msg)
    case Some(f) => FailurePrefix(f) + msg
    case None =>
      var restErr := GenericPrefix() + msg;
      if hasRest then restErr + FallbackNote else restErr
  }

  /** An authorization failure is reported as such whatever else the message
      mentions, and the REST client only ever changes unclassified errors. */
  lemma AuthorizationWins(a: string, b: string, hasRest: bool)
    ensures CreateErrorText(a + "401" + b, hasRest) ==
              FailurePrefix(Unauthorized) + a + "401" + b
    ensures CreateErrorText(a + "Unauthorized" + b, true) == CreateErrorText(a + "Unauthorized" + b, false)
  {
    ContainsInfix(a, "401", b);
    ContainsInfix(a, "Unauthorized", b);
  }

  /** The fallback note is appended exactly to unclassified errors with a REST client. */
  lemma FallbackNoteOnlyWithRest(msg: string)
    ensures CreateErrorText(msg, true) != CreateErrorText(msg, false) <==> ClassifyCreateError(msg).None?
    ensures ClassifyCreateError(msg).None? ==> CreateErrorText(msg, true) == CreateErrorText(msg, false) + FallbackNote
  {
    if ClassifyCreateError(msg).None? {
      assert |CreateErrorText(msg, true)| != |CreateErrorText(msg, false)|;
    }
  }

  // ---------------------------------------------------------------------
  // CreateProjectV2: the handler
  // ---------------------------------------------------------------------

  /** The CreateProjectV2 handler as one expression: defaults, clients,
      owner resolution, the mutation, then error classification. */
  function CreateProjectV2Spec(args: Arguments, clients: ClientSet, gql: GraphQL): Handled
  {
    var st := SettingsOf(args);
    match clients
    case ClientsFailed(e) => Handled(GoError(e), [])
    case Clients(hasRest) =>
      var res := ResolveOwner(st.owner, gql.query);
      match res.ownerId
      case Err(text) => Handled(ToolError(text), res.sent)
      case Ok(id) =>
        var m := CreateProject(NewCreateInput(id, st.title, st.description, st.public));
        var sent := res.sent + [Mutated(m)];
        match gql.mutate(m)
        case MutationFailed(e) => Handled(ToolError(CreateErrorText(e, hasRest)), sent)
        case MutationDone(json) => Handled(ToolText(json), sent)
  }

  /** The mutation is sent at most once, last, and only after the owner
      resolved; its input carries the resolved ID and the defaulted title,
      description and visibility. */
  lemma CreateSendsAtMostOneMutation(args: Arguments, clients: ClientSet, gql: GraphQL)
    ensures var h := CreateProjectV2Spec(args, clients, gql);
            forall k :: 0 <= k < |h.sent| - 1 ==> h.sent[k].Queried?
    ensures var h := CreateProjectV2Spec(args, clients, gql);
            var st := SettingsOf(args);
            |h.sent| > 0 && h.sent[|h.sent| - 1].Mutated? ==>
              clients.Clients? && ResolveOwner(st.owner, gql.query).ownerId.Ok? &&
              h.sent[|h.sent| - 1].m ==
                CreateProject(NewCreateInput(ResolveOwner(st.owner, gql.query).ownerId.value,
                                             st.title, st.description, st.public))
    ensures clients.ClientsFailed? ==> CreateProjectV2Spec(args, clients, gql) == Handled(GoError(clients.err), [])
  {
    var h := CreateProjectV2Spec(args, clients, gql);
    if clients.Clients? {
      var res := ResolveOwner(SettingsOf(args).owner, gql.query);
      forall k | 0 <= k < |res.sent|
        ensures res.sent[k].Queried?
      {
        assert res.sent[k] == Lookups(SettingsOf(args).owner)[k];
      }
    }
  }

  /** The handler's defaults, overwritten one by one by well-typed arguments. */
  method ReadSettings(args: Arguments) returns (st: Settings)
    ensures st == SettingsOf(args)
  {
    var owner := DefaultOwner;
    var title := DefaultTitle;
    var description := "";
    var public := false;
    if "owner" in args && args["owner"].Str? {
      owner := args["owner"].s;
    }
    if "title" in args && args["title"].Str? {
      title := args["title"].s;
    }
    if "description" in args && args["description"].Str? {
      description := args["description"].s;
    }
    if "public" in args && args["public"].Bool? {
      public := args["public"].b;
    }
    st := Settings(owner, title, description, public);
  }

  /** The handler's owner lookups, step by step: viewer, then user, then
      organization. */
  method LookUpOwner(owner: string, gql: GraphQL) returns (ownerId: Result<string>, ghost sent: seq<Request>)
    ensures ownerId == ResolveOwner(owner, gql.query).ownerId
    ensures sent == ResolveOwner(owner, gql.query).sent
  {
    var viewer := gql.query(ViewerQuery);
    sent := [Queried(ViewerQuery)];
    if viewer.err.Some? {
      return Err(ViewerFailedText(viewer.err.value)), sent;
    }
    if viewer.login == owner {
      return Ok(viewer.id), sent;
    }
    var user := gql.query(UserQuery(owner));
    sent := sent + [Queried(UserQuery(owner))];
    if user.err.None? && user.id != "" {
      return Ok(user.id), sent;
    }
    var org := gql.query(OrganizationQuery(owner));
    sent := sent + [Queried(OrganizationQuery(owner))];
    if org.err.Some? {
      return Err(OrganizationFailedText(owner)), sent;
    }
    if org.id == "" {
      return Err(NoOwnerIdText(owner)), sent;
    }
    ownerId := Ok(org.id);
  }

  /** The CreateProjectV2 handler, step by step as the source runs it. */
  method CreateProjectV2(args: Arguments, clients: ClientSet, gql: GraphQL) returns (reply: Reply, ghost sent: seq<Request>)
    ensures reply == CreateProjectV2Spec(args, clients, gql).reply
    ensures sent == CreateProjectV2Spec(args, clients, gql).sent
  {
    var st := ReadSettings(args);
    if clients.ClientsFailed? {
      return GoError(clients.err), [];
    }
    var resolved;
    resolved, sent := LookUpOwner(st.owner, gql);
    if resolved.Err? {
      return ToolError(resolved.msg), sent;
    }

    var input := CreateInput(resolved.value, st.title, "", false);
    if st.description != "" {
      input := input.(shortDescription := st.description);
    }
    input := input.(public := st.public);

    var m := CreateProject(input);
    var answer := gql.mutate(m);
    sent := sent + [Mutated(m)];
    match answer
    case MutationFailed(e) =>
      var text := CreateErrorText(e, clients.hasRest);
      reply := ToolError(text);
    case MutationDone(json) =>
      reply := ToolText(json);
  }

  // ---------------------------------------------------------------------
  // Add / Update / DeleteProjectV2Item
  // ---------------------------------------------------------------------

  /** The reference reading of a chain of `requiredParam[string]` checks:
      the values of `keys` in order, or the error of the first key whose check
      fails. */
  function BindStrings(args: Arguments, keys: seq<string>): (r: Result<seq<string>>)
    ensures r.Ok? ==> |r.value| == |keys|
    ensures r.Ok? <==> forall i :: 0 <= i < |keys| ==> RequiredParam(args, keys[i], KString).err.None?
    ensures r.Ok? ==> forall i :: 0 <= i < |keys| ==> Str(r.value[i]) == args[keys[i]] && r.value[i] != ""
    ensures r.Err? ==> exists i :: 0 <= i < |keys| && RequiredParam(args, keys[i], KString).err == Some(r.msg)
                                   && forall j :: 0 <= j < i ==> RequiredParam(args, keys[j], KString).err.None?
  {
    if keys == [] then Ok([])
    else
      var b := RequiredParam(args, keys[0], KString);
      if b.err.Some? then Err(b.err.value)
      else
        var rest := BindStrings(args, keys[1..]);
        assert forall i :: 1 <= i < |keys| ==> keys[i] == keys[1..][i - 1];
        match rest
        case Err(e) => Err(e)
        case Ok(vs) => Ok([b.value.s] + vs)
  }

  /** One step of the chain: the first key, then the rest. */
  lemma BindStringsCons(args: Arguments, key: string, rest: seq<string>)
    ensures BindStrings(args, [key] + rest) ==
              var b := RequiredParam(args, key, KString);
              if b.err.Some? then Err(b.err.value)
              else match BindStrings(args, rest)
                   case Err(e) => Err(e)
                   case Ok(vs) => Ok([b.value.s] + vs)
  {
    assert ([key] + rest)[0] == key && ([key] + rest)[1..] == rest;
  }

  /** What a handler does with the answer to its item mutation. */
  function MutationOutcome(m: Mutation, gql: GraphQL, prefix: string): (h: Handled)
    ensures h.sent == [Mutated(m)]
    ensures gql.mutate(m).MutationFailed? ==> h.reply == ToolError(prefix + gql.mutate(m).err)
    ensures gql.mutate(m).MutationDone? ==> h.reply == ToolText(gql.mutate(m).json)
  {
    match gql.mutate(m)
    case MutationFailed(e) => Handled(ToolError(prefix + e), [Mutated(m)])
    case MutationDone(json) => Handled(ToolText(json), [Mutated(m)])
  }

  const AddItemKeys: seq<string> := ["project_id", "content_id"]
  const UpdateItemKeys: seq<string> := ["project_id", "item_id", "field_id", "value"]
  const DeleteItemKeys: seq<string> := ["project_id", "item_id"]

  /** The AddProjectV2Item handler. */
  function AddProjectV2Item(args: Arguments, clients: ClientSet, gql: GraphQL): Handled
  {
    if clients.ClientsFailed? then Handled(GoError(clients.err), [])
    else
      var projectId := RequiredParam(args, "project_id", KString);
      if projectId.err.Some? then Handled(ToolError(projectId.err.value), [])
      else
        var contentId := RequiredParam(args, "content_id", KString);
        if contentId.err.Some? then Handled(ToolError(contentId.err.value), [])
        else MutationOutcome(AddItem(projectId.value.s, contentId.value.s), gql, "Error adding item to project: ")
  }

  /** The UpdateProjectV2Item handler. */
  function UpdateProjectV2Item(args: Arguments, clients: ClientSet, gql: GraphQL): Handled
  {
    if clients.ClientsFailed? then Handled(GoError(clients.err), [])
    else
      var projectId := RequiredParam(args, "project_id", KString);
      if projectId.err.Some? then Handled(ToolError(projectId.err.value), [])
      else
        var itemId := RequiredParam(args, "item_id", KString);
        if itemId.err.Some? then Handled(ToolError(itemId.err.value), [])
        else
          var fieldId := RequiredParam(args, "field_id", KString);
          if fieldId.err.Some? then Handled(ToolError(fieldId.err.value), [])
          else
            var value := RequiredParam(args, "value", KString);
            if value.err.Some? then Handled(ToolError(value.err.value), [])
            else
              MutationOutcome(UpdateItem(projectId.value.s, itemId.value.s, fieldId.value.s, value.value.s),
                              gql, "Error updating project item: ")
  }

  /** The DeleteProjectV2Item handler. */
  function DeleteProjectV2Item(args: Arguments, clients: ClientSet, gql: GraphQL): Handled
  {
    if clients.ClientsFailed? then Handled(GoError(clients.err), [])
    else
      var projectId := RequiredParam(args, "project_id", KString);
      if projectId.err.Some? then Handled(ToolError(projectId.err.value), [])
      else
        var itemId := RequiredParam(args, "item_id", KString);
        if itemId.err.Some? then Handled(ToolError(itemId.err.value), [])
        else MutationOutcome(DeleteItem(projectId.value.s, itemId.value.s), gql, "Error deleting project item: ")
  }

  /** What an item handler with working clients does, read off the reference
      chain: the first binding error as a tool error with nothing sent, or
      exactly one mutation built from the bound values. */
  function ChainOutcome(bound: Result<seq<string>>, m: seq<string> -> Mutation, arity: nat,
                        gql: GraphQL, prefix: string): Handled
    requires bound.Ok? ==> |bound.value| == arity
  {
    match bound
    case Err(e) => Handled(ToolError(e), [])
    case Ok(vs) => MutationOutcome(m(vs), gql, prefix)
  }

  /** A `getClient` failure precedes every parameter check and is returned as
      a Go error, with nothing sent. */
  lemma ClientFailureFirst(args: Arguments, err: string, gql: GraphQL)
    ensures AddProjectV2Item(args, ClientsFailed(err), gql) == Handled(GoError(err), [])
    ensures UpdateProjectV2Item(args, ClientsFailed(err), gql) == Handled(GoError(err), [])
    ensures DeleteProjectV2Item(args, ClientsFailed(err), gql) == Handled(GoError(err), [])
  {
  }

  /** AddProjectV2Item checks project_id then content_id, and mutates only
      when both pass. */
  lemma {:induction false} AddItemFollowsChain(args: Arguments, hasRest: bool, gql: GraphQL)
    ensures AddProjectV2Item(args, Clients(hasRest), gql) ==
              ChainOutcome(BindStrings(args, AddItemKeys), vs => if |vs| == 2 then AddItem(vs[0], vs[1]) else AddItem("", ""),
                           2, gql, "Error adding item to project: ")
  {
    var keys := AddItemKeys;
    assert keys[1..] == ["content_id"] && keys[1..][1..] == [];
  }

  /** UpdateProjectV2Item checks project_id, item_id, field_id and value in
      that order, and mutates only when all four pass. */
  lemma {:induction false} UpdateItemFollowsChain(args: Arguments, hasRest: bool, gql: GraphQL)
    ensures UpdateProjectV2Item(args, Clients(hasRest), gql) ==
              ChainOutcome(BindStrings(args, UpdateItemKeys),
                           vs => if |vs| == 4 then UpdateItem(vs[0], vs[1], vs[2], vs[3]) else UpdateItem("", "", "", ""),
                           4, gql, "Error updating project item: ")
  {
    BindStringsCons(args, "project_id", ["item_id", "field_id", "value"]);
    BindStringsCons(args, "item_id", ["field_id", "value"]);
    BindStringsCons(args, "field_id", ["value"]);
    BindStringsCons(args, "value", []);
  }

  /** DeleteProjectV2Item checks project_id then item_id, and mutates only
      when both pass. */
  lemma {:induction false} DeleteItemFollowsChain(args: Arguments, hasRest: bool, gql: GraphQL)
    ensures DeleteProjectV2Item(args, Clients(hasRest), gql) ==
              ChainOutcome(BindStrings(args, DeleteItemKeys), vs => if |vs| == 2 then DeleteItem(vs[0], vs[1]) else DeleteItem("", ""),
                           2, gql, "Error deleting project item: ")
  {
    var keys := DeleteItemKeys;
    assert keys[1..] == ["item_id"] && keys[1..][1..] == [];
  }

  /** A chain of required strings binds exactly when each key holds a
      non-empty string. */
  lemma BindStringsIffPresent(args: Arguments, keys: seq<string>)
    ensures BindStrings(args, keys).Ok? <==>
              forall i :: 0 <= i < |keys| ==> keys[i] in args && args[keys[i]].Str? && args[keys[i]].s != ""
  {
    forall i | 0 <= i < |keys|
      ensures RequiredParam(args, keys[i], KString).err.None? <==>
                keys[i] in args && args[keys[i]].Str? && args[keys[i]].s != ""
    {
      RequiredStringPassesNonEmpty(args, keys[i]);
    }
  }

  /** The item handlers send a mutation only with every required string
      present and non-empty; an empty `value` is rejected like a missing one. */
  lemma ItemMutationNeedsAllParams(args: Arguments, hasRest: bool, gql: GraphQL)
    ensures AddProjectV2Item(args, Clients(hasRest), gql).sent != [] <==>
              forall i :: 0 <= i < |AddItemKeys| ==> AddItemKeys[i] in args && args[AddItemKeys[i]].Str? && args[AddItemKeys[i]].s != ""
    ensures UpdateProjectV2Item(args, Clients(hasRest), gql).sent != [] <==>
              forall i :: 0 <= i < |UpdateItemKeys| ==> UpdateItemKeys[i] in args && args[UpdateItemKeys[i]].Str? && args[UpdateItemKeys[i]].s != ""
    ensures DeleteProjectV2Item(args, Clients(hasRest), gql).sent != [] <==>
              forall i :: 0 <= i < |DeleteItemKeys| ==> DeleteItemKeys[i] in args && args[DeleteItemKeys[i]].Str? && args[DeleteItemKeys[i]].s != ""
  {
    AddItemFollowsChain(args, hasRest, gql);
    UpdateItemFollowsChain(args, hasRest, gql);
    DeleteItemFollowsChain(args, hasRest, gql);
    BindStringsIffPresent(args, AddItemKeys);
    BindStringsIffPresent(args, UpdateItemKeys);
    BindStringsIffPresent(args, DeleteItemKeys);
  }

}
