# github-mcp-server core, modelled in Dafny

The GitHub MCP server offers GitHub operations as MCP tools. This project models the server's core and proves properties of that model:

- **Parameter binding** (`params.dfy`). These are the helpers every tool handler uses to read its arguments: `requiredParam`, `requiredInt`, `OptionalParam`, `OptionalParamOK`, `OptionalIntParam`, `OptionalIntParamWithDefault`, `OptionalStringArrayParam` and `OptionalPaginationParams`.
  - The JSON argument map is a `map<string, Value>` over the dynamic types the helpers distinguish.
  - Go's type parameter `T` becomes a `Kind`.
  - Each Go `(value, error)` pair becomes a `Bound` record that carries both.
- **Rate-limit handling** (`ratelimit.dfy`). This covers `handleRateLimit` and the retry loop `withRateLimitRetry`.
  - The wrapped call and the context's cancellation are per-attempt oracles.
  - Time is an integer count of nanoseconds.
  - The loop is an imperative method, proved equal to a recursive specification `Retry`. Every property is proved about `Retry`.
- **Tool registration** (`registry.dfy`). `NewServer` registers its tool list on an `MCPServer` object; read-only mode skips the mutating tools.
- **The Projects V2 tool handlers** (`projects.dfy`). This covers:
  - `CreateProjectV2`: defaults, owner resolution through GraphQL queries, the mutation and the classification of its error;
  - the `requiredParam` chains of the add, update and delete item tools;
  - the `GetProjectV2` stub.

  GraphQL is an oracle. Each handler returns the requests it sent together with its reply.
- **The internal project client** (`client.dfy`). This covers its argument guards and the NOT_FOUND / FORBIDDEN / INVALID classification of upstream errors.

`strings.dfy` defines the `strings.Contains`, decimal formatting and `json.Number.Int64` parsing that the core relies on. `wrappers.dfy` holds `Option` and `Result`.

Where the code and its own comments disagree, the model follows the code:

- `requiredInt` accepts zero, although its doc comment lists a non-zero check. See Findings.
- `WithPagination` documents `perPage` as 1 to 100, but `OptionalPaginationParams` clamps nothing.
- The retry loop backs off exponentially only when the reset time has already passed. In every other case it waits until the reset time.
- A negative `maxRetries` returns success without calling the wrapped function.
- `CreateProjectV2Input.Public` is tagged `omitempty`, so `public: false` is never sent, although a comment says the field is always included.

## Model

| member | source | states |
|---|---|---|
| Params.OptionalParamOK | pkg/github/server.go:220-240 | The presence flag is true exactly when the key is present. There is an error exactly when the key is present with a value of another type; its message is "parameter p is not of type T, is U". Otherwise the value is the argument if present, else the zero value of T. |
| Params.OptionalParam | pkg/github/server.go:308-322 | An absent key yields T's zero value and no error. A value of the wrong type yields the zero value and the type error. Otherwise the argument is returned. |
| Params.OptionalParamForgetsPresence | pkg/github/server.go:308-322 | OptionalParam is OptionalParamOK without the presence flag. |
| Params.RequiredParam | pkg/github/server.go:253-272 | The call succeeds exactly when the key is present, has type T and is not T's zero value. Absent and zero values report "missing required parameter: p"; a wrong type reports "parameter p is not of type T". Every error comes with the zero value. |
| Params.RequiredIsOptionalNonZero | pkg/github/server.go:253-272 | requiredParam succeeds exactly when OptionalParam binds the key without error to a non-zero value; both then return the same value. |
| Params.RequiredStringPassesNonEmpty | pkg/github/server.go:253-272 | A required string parameter is accepted exactly when it is present as a non-empty string. |
| Params.RequiredInt | pkg/github/server.go:279-302 | An absent key reports "missing required parameter". A float64 is truncated toward zero. int and int64 pass unchanged. A json.Number is parsed as int64, and a parse failure is reported as "failed to parse p as int: …". Every other type reports "invalid type for p, expected number, got T". Every error comes with 0. |
| Params.NumericFormsAgree | pkg/github/server.go:284-297 | For any int64 value n, the int, int64 and json.Number encodings of n bind to n; the float64 encoding does too when |n| <= 2^53, where the float64 is exact. |
| Params.RequiredIntAcceptsZero | pkg/github/server.go:279-302 | As written, a present zero, or a float that truncates to zero, is accepted as a valid required integer. |
| Params.RequiredNonZeroInt | pkg/github/server.go:274-278 | The corrected helper rejects exactly the inputs that requiredInt rejects, plus a value of zero, which it reports as missing. Otherwise it agrees with requiredInt. |
| Params.OptionalIntParam | pkg/github/server.go:328-334 | Only a float64 is accepted. It is truncated, an absent key gives 0, and any other type is an error. |
| Params.OptionalIntParamWithDefault | pkg/github/server.go:338-347 | The default replaces 0, whether the 0 was given or the key was absent. Errors pass through with the default dropped. |
| Params.OptionalPaginationParams | pkg/github/server.go:406-419 | page defaults to 1 and perPage to 30. The first binding error wins, and page is checked before perPage. |
| Params.PaginationDefaultsAndNoClamp | pkg/github/server.go:379-419 | Empty arguments give (1, 30), and so do zeros. Declared bounds are not enforced: perPage 150 stays 150 and page -2 stays -2. A page of the wrong type is an error. |
| Params.OptionalStringArrayParam | pkg/github/server.go:353-377 | An absent key gives []. A []string is returned as is. A []any returns its elements in order when all of them are strings; otherwise the error names the first non-string element. Any other type is an error. |
| Strings.FormatParseRoundTrip | pkg/github/server.go:291-297 | json.Number's Int64 reads back every int64 from its decimal text. |
| RateLimit.HandleRateLimit | pkg/github/server.go:31-51 | It errors exactly when a response exists with 0 remaining, and the error carries the reset time. It warns exactly when remaining is non-zero (negative values included) and remaining/limit < 0.1. With no response it neither errors nor warns. |
| RateLimit.WithRateLimitRetry | pkg/github/server.go:54-104 | The loop returns the error that the recursive specification Retry gives. Its calls and waits are those of Retry. |
| RateLimit.TryOnce | pkg/github/server.go:56-98 | One pass of the loop body goes on exactly when the attempt exhausted the quota, was not the last one allowed, and its wait was not cancelled. It then sleeps the wait of the specification: until the reset, or 2^i seconds when the rate-limit error's reset has passed. Otherwise it returns the error and waits of the specification's final step. |
| RateLimit.CallsBounded | pkg/github/server.go:55-57 | The wrapped function is called at least once and at most maxRetries+1 times. With a negative budget it is never called, and the result is nil. |
| RateLimit.OnlyExhaustionRetries | pkg/github/server.go:56-98 | Every attempt before the last exhausted the quota and was followed by a wait that was not cancelled. The last attempt is followed by a wait only when that wait is cancelled. |
| RateLimit.CleanFirstAttempt | pkg/github/server.go:82-100 | A first attempt with no error and a non-exhausted response returns nil after one call and no wait. |
| RateLimit.OtherErrorNotRetried | pkg/github/server.go:78-79 | An error other than a rate-limit error stops the loop and is returned unchanged. |
| RateLimit.SucceedsAfterWaits | pkg/github/server.go:54-100 | If the first k attempts are exhausted, attempt k is clean, and no wait is cancelled, the result is nil after k waits. |
| RateLimit.ExhaustionIsTerminal | pkg/github/server.go:59-92 | If every attempt exhausts the quota and no wait is cancelled, there are maxRetries+1 calls and maxRetries waits. The loop ends with the "max retries exceeded" error that matches the last attempt's kind. |
| RateLimit.PastResetBacksOff | pkg/github/server.go:65-69 | While the rate-limit error keeps reporting a reset time that has passed, the j-th wait of attempt i is 2^(i+j) seconds. |
| RateLimit.FutureResetWaitsUntilReset | pkg/github/server.go:65-75 | If the reset time is in the future, the first wait lasts until that reset. |
| RateLimit.CancelledWaitStops | pkg/github/server.go:71-76 | A cancelled wait ends the loop with the context error and makes no further call. |
| Registry.MCPServer.constructor | pkg/github/server.go:109-113 | A new server has no tools. |
| Registry.MCPServer.AddTool | pkg/github/server.go:123-178 | Registration appends the tool and changes nothing else. |
| Registry.RegisterIssueTools | pkg/github/server.go:122-131 | This block appends the issue read tools, followed by the write tools unless the server is read-only. |
| Registry.RegisterPullRequestTools | pkg/github/server.go:133-146 | This block appends the pull-request read tools, followed by the write tools unless the server is read-only. |
| Registry.RegisterProjectTools | pkg/github/server.go:148-155 | This block appends the project read tools, followed by the write tools unless the server is read-only. |
| Registry.RegisterRepositoryTools | pkg/github/server.go:157-167 | This block appends the repository read tools, followed by the write tools unless the server is read-only. |
| Registry.RegisterOtherTools | pkg/github/server.go:169-178 | This block always appends the search, user and code-scanning tools. |
| Registry.NewServer | pkg/github/server.go:107-180 | The server is named "github-mcp-server", carries the given version, and registers exactly the specified tool list for its mode. |
| Registry.ReadOnlyViewMembers | pkg/github/server.go:127-167 | A tool is in the read-only view of a list exactly when it is in the list and is not mutating. |
| Registry.ReadOnlyViewOfAssemble | pkg/github/server.go:122-178 | For correctly tagged groups, assembling in read-only mode equals the read-only view of the full assembly. |
| Registry.ReadOnlyCatalogue | pkg/github/server.go:122-178 | The read-only server registers exactly the full catalogue minus its mutating tools, in the same order. |
| Registry.RegisteredByGroup | pkg/github/server.go:122-178 | The registered list is the blocks in source order: issues, pull requests, projects, repositories, then the rest. |
| Registry.ReadOnlyNeverDispatchesMutating | pkg/github/server.go:127-167 | A read-only server registers no mutating tool, so a lookup by any name never finds one. |
| Registry.ReadToolsInBothModes | pkg/github/server.go:122-178 | Every read tool of the catalogue is registered in both modes. |
| Registry.CatalogueCounts | pkg/github/server.go:122-178 | 36 tools are registered normally and 19 in read-only mode. |
| ProjectTools.GetProjectV2 | pkg/github/projects.go:27-44 | The stub sends no request and returns its fixed JSON message as a non-error result. |
| ProjectTools.GetProjectV2IgnoresArguments | pkg/github/projects.go:27-44 | The stub's reply is the same for every argument map. |
| ProjectTools.SettingsAgreeWithOptionalParamOK | pkg/github/projects.go:71-106 | A string or bool setting is the argument exactly when OptionalParamOK reports it present and well typed. Otherwise it is the default: a wrongly typed argument silently keeps the default, where OptionalParamOK would report an error. |
| ProjectTools.ReadSettings | pkg/github/projects.go:71-106 | The defaults overwritten by the well-typed arguments are the settings that SettingsAgreeWithOptionalParamOK characterises. |
| ProjectTools.ResolveOwner | pkg/github/projects.go:124-180 | It sends 1 to 3 lookups, as a prefix of viewer, user, organization. A resolved id is the id of the last lookup. |
| ProjectTools.LookUpOwner | pkg/github/projects.go:124-180 | The step-by-step lookups return the owner id, or the error text, and send the requests of ResolveOwner. |
| ProjectTools.ViewerFailureStopsResolution | pkg/github/projects.go:124-128 | A failed viewer query stops resolution with "Error querying authenticated user: …" after one request. |
| ProjectTools.ViewerOwnsWithoutLookup | pkg/github/projects.go:132-136 | When the owner is the viewer, the viewer's id is used and nothing else is queried. |
| ProjectTools.UserBeforeOrganization | pkg/github/projects.go:137-157 | A user lookup that succeeds decides the owner id, and the organization is not queried. |
| ProjectTools.OrganizationFallback | pkg/github/projects.go:154-180 | The organization is tried only after the user lookup fails. If it also fails, the message is "Could not find user or organization". |
| ProjectTools.NewCreateInput | pkg/github/projects.go:191-203 | The mutation input carries the resolved owner id, title, description and visibility. |
| ProjectTools.InputKeys | pkg/github/projects.go:184-189 | ownerId and title are always sent. shortDescription is sent exactly when it is non-empty, and public exactly when it is true. |
| ProjectTools.ClassifyCreateErrorIsFirstMatch | pkg/github/projects.go:234-245 | The error classification is the first matching rule of the ordered substring table. |
| ProjectTools.CreateErrorText | pkg/github/projects.go:230-259 | Each error class gets its own message, and every message carries the GraphQL error text. The REST note is added exactly for unclassified errors when a REST client exists. |
| ProjectTools.AuthorizationWins | pkg/github/projects.go:235-237 | A message containing "401" is reported as an authorization failure, whatever else it contains. An "Unauthorized" message gets the same text with or without a REST client. |
| ProjectTools.FallbackNoteOnlyWithRest | pkg/github/projects.go:247-259 | The "REST API fallback" note appears only when a REST client is available. |
| ProjectTools.CreateSendsAtMostOneMutation | pkg/github/projects.go:111-229 | The handler sends at most one mutation, only as its last request, and only after the owner id has been resolved. |
| ProjectTools.CreateProjectV2 | pkg/github/projects.go:66-272 | The imperative handler returns the reply and request log of CreateProjectV2Spec. |
| ProjectTools.BindStrings | pkg/github/projects.go:294-301 | A chain of requiredParam[string] calls succeeds exactly when every key binds, and it returns the values in order. On failure it returns the error of the first key that fails. |
| ProjectTools.BindStringsIffPresent | pkg/github/projects.go:294-301 | A chain of required string parameters binds exactly when every key holds a non-empty string. |
| ProjectTools.MutationOutcome | pkg/github/projects.go:326-336 | Exactly one mutation is sent. Its error is returned with the handler's prefix; otherwise its JSON is returned as text. |
| ProjectTools.ClientFailureFirst | pkg/github/projects.go:289-292 | When getting the client fails, each item handler returns that Go error and sends nothing. |
| ProjectTools.AddItemFollowsChain | pkg/github/projects.go:288-337 | The add handler binds projectId and then contentId, and mutates only when both bind. |
| ProjectTools.UpdateItemFollowsChain | pkg/github/projects.go:361-422 | The update handler binds projectId, itemId, fieldId and value in that order, and mutates only when all four bind. |
| ProjectTools.DeleteItemFollowsChain | pkg/github/projects.go:438-485 | The delete handler binds projectId and then itemId, and mutates only when both bind. |
| ProjectTools.ItemMutationNeedsAllParams | pkg/github/projects.go:361-382 | An item mutation is sent only if every required parameter is present as a non-empty string. |
| ProjectClient.FailuresAreFirstMatch | internal/github/project.go:203-212 | The access and update classifications are the first matching rule of their tables: NOT_FOUND, then FORBIDDEN, then INVALID for updates. |
| ProjectClient.NewCreateProjectV2Input | internal/github/project.go:28-36 | The input carries the owner as OwnerID and the title. The description is set only when it is non-empty, the visibility is always set, and no repository is set. |
| ProjectClient.CreateProjectV2 | internal/github/project.go:12-53 | An empty owner or title is rejected before any request is sent. Otherwise exactly one mutation is sent. An upstream error is mapped to its not-found, permission or generic text; otherwise the project is returned. |
| ProjectClient.GetProjectV2 | internal/github/project.go:55-94 | An empty owner or a number <= 0 is rejected without a request. A project that comes back missing is reported as "project N not found for user OWNER". Upstream errors are classified. |
| ProjectClient.DeleteProjectV2Item | internal/github/project.go:96-131 | An empty project or item id is rejected without a request. Otherwise the call succeeds exactly when the mutation does, and its errors are classified. |
| ProjectClient.AddProjectV2Item | internal/github/project.go:133-170 | An empty project or content id is rejected without a request. Otherwise the call succeeds exactly when the mutation does, and its errors are classified. |
| ProjectClient.UpdateProjectV2Item | internal/github/project.go:172-217 | An empty project, item or field id is rejected without a request; an empty value is accepted. Otherwise the call succeeds exactly when the mutation does, and its errors are classified, INVALID included. |
| ProjectClient.NotFoundBeforeForbidden | internal/github/project.go:42-47 | A message that contains both NOT_FOUND and FORBIDDEN is reported as not found. |
| ProjectClient.InvalidOnlyAfterAccessChecks | internal/github/project.go:203-212 | INVALID decides an update failure only when neither NOT_FOUND nor FORBIDDEN occurs. |
| ProjectClient.GuardsPrecedeRequests | internal/github/project.go:15-20 | A rejected argument gives the same result whatever the API would answer. |

## Left out

- Logging, `fmt.Printf`/`log.Printf` output, and the MCP server options (resource and logging capabilities): these are I/O with no effect on results.
- `GetMe`, the resource templates (pkg/github/server.go:115-120) and the non-project tool handlers: the model covers only the registration of these tools.
- `isAcceptedError` (pkg/github/server.go:242-246): no modelled operation calls it.
- Tool schemas and descriptions (`mcp.NewTool`, `WithPagination`'s schema bounds): metadata only. The missing runtime clamp is stated by Params.PaginationDefaultsAndNoClamp.
- Float64 is modelled as an exact real: NaN, infinities, rounding and the overflow of `int(f)` are not modelled.
- Go integers are unbounded: the 64-bit overflow of `1<<uint(i)` and of `time.Duration` for large retry counts is not modelled, and neither is the 32-bit `githubv4.Int(number)` conversion in the client's `GetProjectV2`.
- RateLimit.WithRateLimitRetry: the clock advances only by waiting, the wrapped call takes no time, and cancellation is observed only at a wait.
- RateLimit.HandleRateLimit: the 10% low-quota test is exact rational arithmetic, not float64.
- Params.NumericFormsAgree: a float64 argument is an exact real; JSON decoding's rounding of integers beyond 2^53 to the nearest float64 is not modelled, so the float64 clause is stated only within 2^53.
- The `strconv` error messages are modelled without Go's quoting of escape characters.
- JSON marshalling is opaque: results are carried as given strings, and the `json.Marshal` error paths are not modelled, because they cannot fail for these values.
- The GraphQL query and mutation structs: only the identity and variables of each request are modelled.
- The internal `Client` struct and the `ProjectV2` type are not part of this model. Only the project id is modelled.
- The REST fallback for creating a project is absent from the source; only its message is modelled.
- `mcp-go`'s dispatch and its handling of duplicate tool names are not part of this model. Registry.Find stands in for a lookup by name.

## Findings

| source | as written | input that shows it | evidently intended | confidence | as-written member | corrected member |
|---|---|---|---|---|---|---|
| pkg/github/server.go:274-302 | requiredInt returns a present zero, or a float64 that truncates to zero, as a valid value | arguments `{"n": 0}` or `{"n": 0.5}` give `(0, nil)` | the documented third check: a zero value is reported as "missing required parameter: n", as requiredParam does | medium, not executed | Params.RequiredIntAcceptsZero | Params.RequiredNonZeroInt |
