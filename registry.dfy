/** The tool list of the MCP server that NewServer builds
    (pkg/github/server.go). Each tool is named by the Go function that
    constructs it and tagged `mutating` exactly when NewServer registers it
    inside an `if !readOnly` block. */
module Registry {
  import opened Wrappers

  datatype Tool = Tool(name: string, mutating: bool)

  /** The mcp-go server object: a name, a version and the tools added so far,
      in the order they were added. */
  class MCPServer {
    const name: string
    const version: string
    var tools: seq<Tool>

    constructor (name: string, version: string)
      ensures this.name == name && this.version == version && tools == []
    {
      this.name := name;
      this.version := version;
      tools := [];
    }

    /** `s.AddTool(tool, handler)`: the tool joins the end of the list. */
    method AddTool(t: Tool)
      modifies this
      ensures tools == old(tools) + [t]
    {
      tools := tools + [t];
    }
  }

  // The tools in registration order, grouped as NewServer groups them.

  const IssueReads: seq<Tool> :=
    [Tool("GetIssue", false), Tool("SearchIssues", false), Tool("ListIssues", false), Tool("GetIssueComments", false)]
  const IssueWrites: seq<Tool> :=
    [Tool("CreateIssue", true), Tool("AddIssueComment", true), Tool("UpdateIssue", true)]
  const PullRequestReads: seq<Tool> :=
    [Tool("GetPullRequest", false), Tool("ListPullRequests", false), Tool("GetPullRequestFiles", false),
     Tool("GetPullRequestStatus", false), Tool("GetPullRequestComments", false), Tool("GetPullRequestReviews", false)]
  const PullRequestWrites: seq<Tool> :=
    [Tool("MergePullRequest", true), Tool("UpdatePullRequestBranch", true), Tool("CreatePullRequestReview", true),
     Tool("CreatePullRequest", true), Tool("UpdatePullRequest", true)]
  const ProjectReads: seq<Tool> :=
    [Tool("GetProjectV2", false)]
  const ProjectWrites: seq<Tool> :=
    [Tool("CreateProjectV2", true), Tool("AddProjectV2Item", true), Tool("UpdateProjectV2Item", true),
     Tool("DeleteProjectV2Item", true)]
  const RepositoryReads: seq<Tool> :=
    [Tool("SearchRepositories", false), Tool("GetFileContents", false), Tool("ListCommits", false)]
  const RepositoryWrites: seq<Tool> :=
    [Tool("CreateOrUpdateFile", true), Tool("CreateRepository", true), Tool("ForkRepository", true),
     Tool("CreateBranch", true), Tool("PushFiles", true)]
  const OtherReads: seq<Tool> :=
    [Tool("SearchCode", false), Tool("SearchUsers", false), Tool("GetMe", false),
     Tool("GetCodeScanningAlert", false), Tool("ListCodeScanningAlerts", false)]

  /** A group of NewServer: the tools it always registers, then those it
      registers only when the server is not read-only. */
  type Group = (seq<Tool>, seq<Tool>)

  /** NewServer's groups, in registration order. */
  const Groups: seq<Group> :=
    [(IssueReads, IssueWrites), (PullRequestReads, PullRequestWrites), (ProjectReads, ProjectWrites),
     (RepositoryReads, RepositoryWrites), (OtherReads, [])]

  /** The tools one group registers in a given mode. */
  function GroupTools(g: Group, readOnly: bool): seq<Tool>
  {
    g.0 + Unless(readOnly, g.1)
  }

  /** `c` when the server is not read-only, nothing when it is. */
  function Unless(readOnly: bool, c: seq<Tool>): seq<Tool>
  {
    if readOnly then [] else c
  }

  /** The tools registered for `groups` in a given mode, group after group. */
  function Assemble(groups: seq<Group>, readOnly: bool): seq<Tool>
  {
    if groups == [] then [] else GroupTools(groups[0], readOnly) + Assemble(groups[1..], readOnly)
  }

  /** Every tool NewServer can register, in registration order. */
  function Catalogue(): seq<Tool>
  {
    Assemble(Groups, false)
  }

  /** The tools NewServer registers for a given mode. */
  function Registered(readOnly: bool): seq<Tool>
  {
    Assemble(Groups, readOnly)
  }

  /** The tools of `c` that do not mutate, in their order in `c`. */
  function ReadOnlyView(c: seq<Tool>): seq<Tool>
  {
    if c == [] then []
    else if c[0].mutating then ReadOnlyView(c[1..])
    else [c[0]] + ReadOnlyView(c[1..])
  }

  /** The read-only view holds exactly the non-mutating tools: no mutating
      tool survives it and no read tool is lost. */
  lemma {:induction false} ReadOnlyViewMembers(c: seq<Tool>, t: Tool)
    ensures t in ReadOnlyView(c) <==> t in c && !t.mutating
  {
    if c != [] {
      ReadOnlyViewMembers(c[1..], t);
      assert c == [c[0]] + c[1..];
    }
  }

  /** The read-only view of a concatenation is the concatenation of the views. */
  lemma {:induction false} ReadOnlyViewAppend(a: seq<Tool>, b: seq<Tool>)
    ensures ReadOnlyView(a + b) == ReadOnlyView(a) + ReadOnlyView(b)
  {
    if a != [] {
      assert (a + b)[0] == a[0];
      assert (a + b)[1..] == a[1..] + b;
      ReadOnlyViewAppend(a[1..], b);
    } else {
      assert a + b == b;
    }
  }

  /** The read-only view keeps a list of read tools whole and drops a list of
      mutating tools entirely. */
  lemma {:induction false} ReadOnlyViewOfBlock(c: seq<Tool>, mutating: bool)
    requires forall k :: 0 <= k < |c| ==> c[k].mutating == mutating
    ensures ReadOnlyView(c) == if mutating then [] else c
  {
    if c != [] {
      ReadOnlyViewOfBlock(c[1..], mutating);
    }
  }

  /** Each group's first list holds only read tools and its second only
      mutating ones. */
  predicate WellTagged(groups: seq<Group>)
  {
    forall g :: 0 <= g < |groups| ==>
      (forall k :: 0 <= k < |groups[g].0| ==> !groups[g].0[k].mutating) &&
      (forall k :: 0 <= k < |groups[g].1| ==> groups[g].1[k].mutating)
  }

  /** For well-tagged groups, skipping the write lists while registering is
      the same as registering everything and then taking the read-only view. */
  lemma {:induction false} ReadOnlyViewOfAssemble(groups: seq<Group>)
    requires WellTagged(groups)
    ensures ReadOnlyView(Assemble(groups, false)) == Assemble(groups, true)
  {
    if groups != [] {
      var readTools := groups[0].0;
      var writeTools := groups[0].1;
      assert WellTagged(groups[1..]) by {
        forall g | 0 <= g < |groups[1..]|
          ensures groups[1..][g] == groups[g + 1]
        {
        }
      }
      ReadOnlyViewOfAssemble(groups[1..]);
      ReadOnlyViewAppend(readTools + writeTools, Assemble(groups[1..], false));
      ReadOnlyViewAppend(readTools, writeTools);
      ReadOnlyViewOfBlock(readTools, false);
      ReadOnlyViewOfBlock(writeTools, true);
    }
  }

  /** A read-only server registers exactly the read-only view of the full
      catalogue, in the same order. */
  lemma ReadOnlyCatalogue()
    ensures Registered(true) == ReadOnlyView(Catalogue())
  {
    assert WellTagged(Groups);
    ReadOnlyViewOfAssemble(Groups);
  }

  /** One group of an assembly, then the rest. */
  lemma AssembleStep(groups: seq<Group>, k: nat, readOnly: bool)
    requires k < |groups|
    ensures Assemble(groups[k..], readOnly) == GroupTools(groups[k], readOnly) + Assemble(groups[k + 1..], readOnly)
  {
    assert groups[k..][0] == groups[k];
    assert groups[k..][1..] == groups[k + 1..];
  }

  /** Five groups assemble to their tools, group after group. */
  lemma AssembleFive(g: seq<Group>, readOnly: bool)
    requires |g| == 5
    ensures Assemble(g, readOnly) ==
              g[0].0 + Unless(readOnly, g[0].1) + g[1].0 + Unless(readOnly, g[1].1) + g[2].0 + Unless(readOnly, g[2].1)
              + g[3].0 + Unless(readOnly, g[3].1) + g[4].0 + Unless(readOnly, g[4].1)
  {
    AssembleStep(g, 0, readOnly);
    AssembleStep(g, 1, readOnly);
    AssembleStep(g, 2, readOnly);
    AssembleStep(g, 3, readOnly);
    AssembleStep(g, 4, readOnly);
    assert g[5..] == [] && g[0..] == g;
  }

  /** The registered list, written group by group. */
  lemma RegisteredByGroup(readOnly: bool)
    ensures Registered(readOnly) ==
              IssueReads + Unless(readOnly, IssueWrites) + PullRequestReads + Unless(readOnly, PullRequestWrites)
              + ProjectReads + Unless(readOnly, ProjectWrites) + RepositoryReads + Unless(readOnly, RepositoryWrites)
              + OtherReads
  {
    var g := Groups;
    AssembleFive(g, readOnly);
    assert g[0] == (IssueReads, IssueWrites) && g[1] == (PullRequestReads, PullRequestWrites);
    assert g[2] == (ProjectReads, ProjectWrites) && g[3] == (RepositoryReads, RepositoryWrites);
    assert g[4] == (OtherReads, []);
    var prefix := IssueReads + Unless(readOnly, IssueWrites) + PullRequestReads + Unless(readOnly, PullRequestWrites)
                  + ProjectReads + Unless(readOnly, ProjectWrites) + RepositoryReads + Unless(readOnly, RepositoryWrites);
    assert Registered(readOnly) == prefix + OtherReads + [];
  }

  /** NewServer's block of issue tools: the read tools, then the mutating ones
      unless the server is read-only. */
  method RegisterIssueTools(s: MCPServer, readOnly: bool)
    modifies s
    ensures s.tools == old(s.tools) + IssueReads + Unless(readOnly, IssueWrites)
  {
    s.AddTool(Tool("GetIssue", false));
    s.AddTool(Tool("SearchIssues", false));
    s.AddTool(Tool("ListIssues", false));
    s.AddTool(Tool("GetIssueComments", false));
    if !readOnly {
      s.AddTool(Tool("CreateIssue", true));
      s.AddTool(Tool("AddIssueComment", true));
      s.AddTool(Tool("UpdateIssue", true));
    }
  }

  /** NewServer's block of pull-request tools: the read tools, then the mutating ones
      unless the server is read-only. */
  method RegisterPullRequestTools(s: MCPServer, readOnly: bool)
    modifies s
    ensures s.tools == old(s.tools) + PullRequestReads + Unless(readOnly, PullRequestWrites)
  {
    s.AddTool(Tool("GetPullRequest", false));
    s.AddTool(Tool("ListPullRequests", false));
    s.AddTool(Tool("GetPullRequestFiles", false));
    s.AddTool(Tool("GetPullRequestStatus", false));
    s.AddTool(Tool("GetPullRequestComments", false));
    s.AddTool(Tool("GetPullRequestReviews", false));
    if !readOnly {
      s.AddTool(Tool("MergePullRequest", true));
      s.AddTool(Tool("UpdatePullRequestBranch", true));
      s.AddTool(Tool("CreatePullRequestReview", true));
      s.AddTool(Tool("CreatePullRequest", true));
      s.AddTool(Tool("UpdatePullRequest", true));
    }
  }

  /** NewServer's block of Projects V2 tools: the read tools, then the mutating ones
      unless the server is read-only. */
  method RegisterProjectTools(s: MCPServer, readOnly: bool)
    modifies s
    ensures s.tools == old(s.tools) + ProjectReads + Unless(readOnly, ProjectWrites)
  {
    s.AddTool(Tool("GetProjectV2", false));
    if !readOnly {
      s.AddTool(Tool("CreateProjectV2", true));
      s.AddTool(Tool("AddProjectV2Item", true));
      s.AddTool(Tool("UpdateProjectV2Item", true));
      s.AddTool(Tool("DeleteProjectV2Item", true));
    }
  }

  /** NewServer's block of repository tools: the read tools, then the mutating ones
      unless the server is read-only. */
  method RegisterRepositoryTools(s: MCPServer, readOnly: bool)
    modifies s
    ensures s.tools == old(s.tools) + RepositoryReads + Unless(readOnly, RepositoryWrites)
  {
    s.AddTool(Tool("SearchRepositories", false));
    s.AddTool(Tool("GetFileContents", false));
    s.AddTool(Tool("ListCommits", false));
    if !readOnly {
      s.AddTool(Tool("CreateOrUpdateFile", true));
      s.AddTool(Tool("CreateRepository", true));
      s.AddTool(Tool("ForkRepository", true));
      s.AddTool(Tool("CreateBranch", true));
      s.AddTool(Tool("PushFiles", true));
    }
  }

  /** NewServer's block of search, user and code-scanning tools, registered in both modes. */
  method RegisterOtherTools(s: MCPServer)
    modifies s
    ensures s.tools == old(s.tools) + OtherReads
  {
    s.AddTool(Tool("SearchCode", false));
    s.AddTool(Tool("SearchUsers", false));
    s.AddTool(Tool("GetMe", false));
    s.AddTool(Tool("GetCodeScanningAlert", false));
    s.AddTool(Tool("ListCodeScanningAlerts", false));
  }

  /** NewServer(getClient, version, readOnly, t): with `readOnly` it registers
      only the read tools of each group, otherwise every tool, group after
      group. */
  method NewServer(version: string, readOnly: bool) returns (s: MCPServer)
    ensures fresh(s) && s.name == "github-mcp-server" && s.version == version
    ensures s.tools == Registered(readOnly)
  {
    s := new MCPServer("github-mcp-server", version);
    RegisterIssueTools(s, readOnly);
    RegisterPullRequestTools(s, readOnly);
    RegisterProjectTools(s, readOnly);
    RegisterRepositoryTools(s, readOnly);
    RegisterOtherTools(s);
    RegisteredByGroup(readOnly);
  }

  /** The tool a call by `name` reaches: the first registered one of that name. */
  function Find(tools: seq<Tool>, name: string): (r: Option<Tool>)
    ensures r.Some? ==> r.value in tools && r.value.name == name
    ensures r.None? <==> forall k :: 0 <= k < |tools| ==> tools[k].name != name
  {
    if tools == [] then None
    else if tools[0].name == name then Some(tools[0])
    else Find(tools[1..], name)
  }

  /** A read-only server never reaches a mutating tool: it registers none,
      so whatever name is looked up, what it finds does not mutate. */
  lemma ReadOnlyNeverDispatchesMutating(name: string)
    ensures forall t :: t in Registered(true) ==> !t.mutating
    ensures Find(Registered(true), name).Some? ==> !Find(Registered(true), name).value.mutating
  {
    ReadOnlyCatalogue();
    forall t | t in Registered(true)
      ensures !t.mutating
    {
      ReadOnlyViewMembers(Catalogue(), t);
    }
  }

  /** A read tool of the catalogue is registered in both modes. */
  lemma ReadToolsInBothModes(t: Tool)
    requires t in Catalogue() && !t.mutating
    ensures t in Registered(true) && t in Registered(false)
  {
    ReadOnlyCatalogue();
    ReadOnlyViewMembers(Catalogue(), t);
  }

  /** The full server registers 36 tools and the read-only one 19: the 17 it
      leaves out are the mutating ones. */
  lemma CatalogueCounts()
    ensures |Registered(false)| == 36 && |Registered(true)| == 19
  {
    RegisteredByGroup(false);
    RegisteredByGroup(true);
    assert Registered(true) == IssueReads + PullRequestReads + ProjectReads + RepositoryReads + OtherReads;
  }
}
