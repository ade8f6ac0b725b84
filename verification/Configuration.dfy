/** Cross-registry validation of the configuration (config/models.py). */
module Configuration {
  import opened Wrappers
  import opened Lifecycle

  type Path = seq<string>

  datatype Capability = Read | Write | Execute | Git | Network | Deploy | Admin

  datatype Runtime = Disabled | Codex

  datatype Policy = ProjectWorkspace | ReadOnly

  datatype Agent = Agent(
    role: string, team: Identifier, runtime: Runtime, enabled: bool, profile: Identifier, policy: Policy)

  datatype Kind = Platform | Product

  datatype Team = Team(kind: Kind, room: Identifier, agents: seq<Identifier>, project: Option<Identifier>)

  datatype Project = Project(workspace: Path, team: Identifier)

  /** A dictionary with its insertion order. */
  datatype Registry<T> = Registry(order: seq<Identifier>, entries: map<Identifier, T>)

  datatype Bundle = Bundle(
    agents: Registry<Agent>, teams: Registry<Team>, projects: Registry<Project>,
    permissions: map<Identifier, set<Capability>>, workspaceRoot: Path)

  /** Identifiers are never empty. */
  predicate ValidRegistry<T>(r: Registry<T>) {
    && Distinct(r.order)
    && (forall i :: 0 <= i < |r.order| ==> r.order[i] in r.entries && r.order[i] != "")
    && (forall k :: k in r.entries ==> k in r.order)
  }

  /** The team model's own validators: no agent twice, and exactly the product teams name a project. */
  predicate ValidTeam(t: Team) {
    Distinct(t.agents) && (t.kind.Product? <==> t.project.Some?)
  }

  predicate ValidBundle(b: Bundle) {
    && ValidRegistry(b.agents) && ValidRegistry(b.teams) && ValidRegistry(b.projects)
    && forall t :: t in b.teams.entries ==> ValidTeam(b.teams.entries[t])
  }

  datatype Problem =
    | UnknownTeam(owner: Identifier)
    | NotListedByTeam(agent: Identifier)
    | UnknownProfile(agent: Identifier)
    | UnknownAgent(team: Identifier, agent: Identifier)
    | ForeignAgent(team: Identifier, agent: Identifier)
    | UnknownProject(team: Identifier)
    | TeamNotReciprocal(team: Identifier)
    | ProjectTeamUnknown(project: Identifier)
    | NotProductOwned(project: Identifier)
    | ProjectNotReciprocal(project: Identifier)
    | OutsideWorkspace(project: Identifier)
    | SharedWorkspace(first: Identifier, second: Identifier)
    | SharedRoom(first: Identifier, second: Identifier)

  // ---------------------------------------------------------------- what has to hold

  predicate AgentOk(b: Bundle, id: Identifier, a: Agent) {
    && a.team in b.teams.entries && id in b.teams.entries[a.team].agents
    && a.profile in b.permissions
  }

  predicate MemberOk(b: Bundle, team: Identifier, agent: Identifier) {
    agent in b.agents.entries && b.agents.entries[agent].team == team
  }

  predicate TeamOk(b: Bundle, id: Identifier, t: Team) {
    && (forall i :: 0 <= i < |t.agents| ==> MemberOk(b, id, t.agents[i]))
    && (t.kind.Product? && t.project.Some? ==>
          t.project.value in b.projects.entries && b.projects.entries[t.project.value].team == id)
  }

  predicate Below(prefix: Path, path: Path) {
    prefix < path
  }

  function ProjectRoot(b: Bundle): Path {
    b.workspaceRoot + ["projects"]
  }

  predicate ProjectOk(b: Bundle, id: Identifier, p: Project) {
    && p.team in b.teams.entries
    && b.teams.entries[p.team].kind.Product? && b.teams.entries[p.team].project == Some(id)
    && Below(ProjectRoot(b), p.workspace)
  }

  predicate ShareWorkspace(b: Bundle, p: Identifier, q: Identifier) {
    && p in b.projects.entries && q in b.projects.entries
    && b.projects.entries[p].workspace == b.projects.entries[q].workspace
  }

  predicate ShareRoom(b: Bundle, t: Identifier, u: Identifier) {
    t in b.teams.entries && u in b.teams.entries && b.teams.entries[t].room == b.teams.entries[u].room
  }

  ghost predicate Consistent(b: Bundle) {
    && (forall a :: a in b.agents.entries ==> AgentOk(b, a, b.agents.entries[a]))
    && (forall t :: t in b.teams.entries ==> TeamOk(b, t, b.teams.entries[t]))
    && (forall p :: p in b.projects.entries ==> ProjectOk(b, p, b.projects.entries[p]))
    && (forall p, q :: ShareWorkspace(b, p, q) ==> p == q)
    && (forall t, u :: ShareRoom(b, t, u) ==> t == u)
  }

  /** The reported problem is there. */
  predicate Real(b: Bundle, p: Problem) {
    match p
    case UnknownTeam(a) => a in b.agents.entries && b.agents.entries[a].team !in b.teams.entries
    case NotListedByTeam(a) =>
      && a in b.agents.entries && b.agents.entries[a].team in b.teams.entries
      && a !in b.teams.entries[b.agents.entries[a].team].agents
    case UnknownProfile(a) => a in b.agents.entries && b.agents.entries[a].profile !in b.permissions
    case UnknownAgent(t, a) => t in b.teams.entries && a in b.teams.entries[t].agents && a !in b.agents.entries
    case ForeignAgent(t, a) =>
      && t in b.teams.entries && a in b.teams.entries[t].agents
      && a in b.agents.entries && b.agents.entries[a].team != t
    case UnknownProject(t) =>
      && t in b.teams.entries && b.teams.entries[t].project.Some?
      && b.teams.entries[t].project.value !in b.projects.entries
    case TeamNotReciprocal(t) =>
      && t in b.teams.entries && b.teams.entries[t].project.Some?
      && b.teams.entries[t].project.value in b.projects.entries
      && b.projects.entries[b.teams.entries[t].project.value].team != t
    case ProjectTeamUnknown(p) => p in b.projects.entries && b.projects.entries[p].team !in b.teams.entries
    case NotProductOwned(p) =>
      && p in b.projects.entries && b.projects.entries[p].team in b.teams.entries
      && b.teams.entries[b.projects.entries[p].team].kind.Platform?
    case ProjectNotReciprocal(p) =>
      && p in b.projects.entries && b.projects.entries[p].team in b.teams.entries
      && b.teams.entries[b.projects.entries[p].team].project != Some(p)
    case OutsideWorkspace(p) => p in b.projects.entries && !Below(ProjectRoot(b), b.projects.entries[p].workspace)
    case SharedWorkspace(p, q) => p != q && ShareWorkspace(b, p, q)
    case SharedRoom(t, u) => t != u && ShareRoom(b, t, u)
  }

  predicate AllReal(b: Bundle, errors: seq<Problem>) {
    forall p :: p in errors ==> Real(b, p)
  }

  // ---------------------------------------------------------------- the validator's loops

  method CheckAgents(b: Bundle) returns (errors: seq<Problem>)
    requires ValidBundle(b)
    ensures AllReal(b, errors)
    ensures errors == [] <==> forall a :: a in b.agents.entries ==> AgentOk(b, a, b.agents.entries[a])
  {
    errors := [];
    for i := 0 to |b.agents.order|
      invariant AllReal(b, errors)
      invariant errors == [] <==> forall j :: 0 <= j < i ==> AgentOk(b, b.agents.order[j], b.agents.entries[b.agents.order[j]])
    {
      var id := b.agents.order[i];
      var agent := b.agents.entries[id];
      if agent.team !in b.teams.entries {
        errors := errors + [UnknownTeam(id)];
      } else if id !in b.teams.entries[agent.team].agents {
        errors := errors + [NotListedByTeam(id)];
      }
      if agent.profile !in b.permissions {
        errors := errors + [UnknownProfile(id)];
      }
    }
  }

  method CheckTeam(b: Bundle, id: Identifier, team: Team) returns (errors: seq<Problem>)
    requires id in b.teams.entries && b.teams.entries[id] == team
    ensures AllReal(b, errors)
    ensures errors == [] <==> TeamOk(b, id, team)
  {
    errors := [];
    for i := 0 to |team.agents|
      invariant AllReal(b, errors)
      invariant errors == [] <==> forall j :: 0 <= j < i ==> MemberOk(b, id, team.agents[j])
    {
      var agent := team.agents[i];
      if agent !in b.agents.entries {
        errors := errors + [UnknownAgent(id, agent)];
      } else if b.agents.entries[agent].team != id {
        errors := errors + [ForeignAgent(id, agent)];
      }
    }
    if team.kind.Product? && team.project.Some? {
      if team.project.value !in b.projects.entries {
        errors := errors + [UnknownProject(id)];
      } else if b.projects.entries[team.project.value].team != id {
        errors := errors + [TeamNotReciprocal(id)];
      }
    }
  }

  method CheckTeams(b: Bundle) returns (errors: seq<Problem>)
    requires ValidBundle(b)
    ensures AllReal(b, errors)
    ensures errors == [] <==> forall t :: t in b.teams.entries ==> TeamOk(b, t, b.teams.entries[t])
  {
    errors := [];
    for i := 0 to |b.teams.order|
      invariant AllReal(b, errors)
      invariant errors == [] <==> forall j :: 0 <= j < i ==> TeamOk(b, b.teams.order[j], b.teams.entries[b.teams.order[j]])
    {
      var more := CheckTeam(b, b.teams.order[i], b.teams.entries[b.teams.order[i]]);
      errors := errors + more;
    }
  }

  method CheckProject(b: Bundle, id: Identifier, project: Project) returns (errors: seq<Problem>)
    requires id in b.projects.entries && b.projects.entries[id] == project
    ensures AllReal(b, errors)
    ensures errors == [] <==> ProjectOk(b, id, project)
  {
    errors := [];
    if project.team !in b.teams.entries {
      errors := errors + [ProjectTeamUnknown(id)];
    } else if !b.teams.entries[project.team].kind.Product? {
      errors := errors + [NotProductOwned(id)];
    } else if b.teams.entries[project.team].project != Some(id) {
      errors := errors + [ProjectNotReciprocal(id)];
    }
    if project.workspace == ProjectRoot(b) || !(ProjectRoot(b) <= project.workspace) {
      errors := errors + [OutsideWorkspace(id)];
    }
  }

  /** What the first `n` projects claim, and by which of them it was last claimed. */
  ghost predicate ClaimsOf<T(!new)>(order: seq<Identifier>, key: Identifier -> T, n: nat, claims: map<T, Identifier>)
    requires n <= |order|
  {
    && (forall j :: 0 <= j < n ==> key(order[j]) in claims)
    && (forall k :: k in claims ==> exists j :: 0 <= j < n && order[j] == claims[k] && key(order[j]) == k)
  }

  predicate NoShares<T(==)>(order: seq<Identifier>, key: Identifier -> T, n: nat)
    requires n <= |order|
  {
    forall i, j :: 0 <= i < j < n ==> key(order[i]) != key(order[j])
  }

  lemma ClaimStep<T(!new)>(order: seq<Identifier>, key: Identifier -> T, n: nat, claims: map<T, Identifier>)
    requires n < |order| && ClaimsOf(order, key, n, claims)
    ensures ClaimsOf(order, key, n + 1, claims[key(order[n]) := order[n]])
    ensures NoShares(order, key, n + 1) <==> NoShares(order, key, n) && key(order[n]) !in claims
  {
    var after := claims[key(order[n]) := order[n]];
    forall k | k in after ensures exists j :: 0 <= j < n + 1 && order[j] == after[k] && key(order[j]) == k {
      if k == key(order[n]) {
        assert order[n] == after[k];
      } else {
        var j :| 0 <= j < n && order[j] == claims[k] && key(order[j]) == k;
        assert order[j] == after[k];
      }
    }
    if key(order[n]) in claims {
      var j :| 0 <= j < n && order[j] == claims[key(order[n])] && key(order[j]) == key(order[n]);
      assert !NoShares(order, key, n + 1);
    }
  }

  function WorkspaceOf(b: Bundle): Identifier -> Path {
    id => if id in b.projects.entries then b.projects.entries[id].workspace else []
  }

  function RoomOf(b: Bundle): Identifier -> Identifier {
    id => if id in b.teams.entries then b.teams.entries[id].room else ""
  }

  lemma WorkspaceClash(b: Bundle, n: nat, claims: map<Path, Identifier>)
    requires ValidBundle(b) && n < |b.projects.order| && ClaimsOf(b.projects.order, WorkspaceOf(b), n, claims)
    ensures var id := b.projects.order[n];
            var workspace := b.projects.entries[id].workspace;
            workspace in claims ==> claims[workspace] != "" && Real(b, SharedWorkspace(claims[workspace], id))
  {
  }

  lemma RoomClash(b: Bundle, n: nat, claims: map<Identifier, Identifier>)
    requires ValidBundle(b) && n < |b.teams.order| && ClaimsOf(b.teams.order, RoomOf(b), n, claims)
    ensures var id := b.teams.order[n];
            var room := b.teams.entries[id].room;
            room in claims ==> claims[room] != "" && Real(b, SharedRoom(claims[room], id))
  {
  }

  method CheckProjects(b: Bundle) returns (errors: seq<Problem>)
    requires ValidBundle(b)
    ensures AllReal(b, errors)
    ensures errors == [] <==>
              && (forall p :: p in b.projects.entries ==> ProjectOk(b, p, b.projects.entries[p]))
              && NoShares(b.projects.order, WorkspaceOf(b), |b.projects.order|)
  {
    hide Real, NoShares, ClaimsOf, ProjectOk;
    errors := [];
    var workspaces: map<Path, Identifier> := map[];
    NothingClaimed(b.projects.order, WorkspaceOf(b));
    for i := 0 to |b.projects.order|
      invariant AllReal(b, errors)
      invariant ClaimsOf(b.projects.order, WorkspaceOf(b), i, workspaces)
      invariant errors == [] <==>
                  && (forall j :: 0 <= j < i ==> ProjectOk(b, b.projects.order[j], b.projects.entries[b.projects.order[j]]))
                  && NoShares(b.projects.order, WorkspaceOf(b), i)
    {
      var id := b.projects.order[i];
      var project := b.projects.entries[id];
      ClaimStep(b.projects.order, WorkspaceOf(b), i, workspaces);
      WorkspaceClash(b, i, workspaces);
      var more := CheckProject(b, id, project);
      errors := errors + more;
      if project.workspace in workspaces && workspaces[project.workspace] != "" {
        errors := errors + [SharedWorkspace(workspaces[project.workspace], id)];
      }
      workspaces := workspaces[project.workspace := id];
    }
  }

  method CheckRooms(b: Bundle) returns (errors: seq<Problem>)
    requires ValidBundle(b)
    ensures AllReal(b, errors)
    ensures errors == [] <==> NoShares(b.teams.order, RoomOf(b), |b.teams.order|)
  {
    hide Real, NoShares, ClaimsOf;
    errors := [];
    var rooms: map<Identifier, Identifier> := map[];
    NothingClaimed(b.teams.order, RoomOf(b));
    for i := 0 to |b.teams.order|
      invariant AllReal(b, errors)
      invariant ClaimsOf(b.teams.order, RoomOf(b), i, rooms)
      invariant errors == [] <==> NoShares(b.teams.order, RoomOf(b), i)
    {
      var id := b.teams.order[i];
      var room := b.teams.entries[id].room;
      ClaimStep(b.teams.order, RoomOf(b), i, rooms);
      RoomClash(b, i, rooms);
      if room in rooms && rooms[room] != "" {
        errors := errors + [SharedRoom(rooms[room], id)];
      }
      rooms := rooms[room := id];
    }
  }

  lemma NothingClaimed<T(!new)>(order: seq<Identifier>, key: Identifier -> T)
    ensures ClaimsOf(order, key, 0, map[]) && NoShares(order, key, 0)
  {
  }

  lemma NoSharedWorkspace(b: Bundle)
    requires ValidBundle(b)
    ensures NoShares(b.projects.order, WorkspaceOf(b), |b.projects.order|) <==>
            forall p, q :: ShareWorkspace(b, p, q) ==> p == q
  {
    var order := b.projects.order;
    if NoShares(order, WorkspaceOf(b), |order|) {
      forall p, q | ShareWorkspace(b, p, q) ensures p == q {
        var i :| 0 <= i < |order| && order[i] == p;
        var j :| 0 <= j < |order| && order[j] == q;
        assert WorkspaceOf(b)(order[i]) == WorkspaceOf(b)(order[j]);
      }
    }
    if forall p, q :: ShareWorkspace(b, p, q) ==> p == q {
      forall i, j | 0 <= i < j < |order| ensures WorkspaceOf(b)(order[i]) != WorkspaceOf(b)(order[j]) {
        assert !ShareWorkspace(b, order[i], order[j]);
      }
    }
  }

  lemma NoSharedRoom(b: Bundle)
    requires ValidBundle(b)
    ensures NoShares(b.teams.order, RoomOf(b), |b.teams.order|) <==> forall t, u :: ShareRoom(b, t, u) ==> t == u
  {
    var order := b.teams.order;
    if NoShares(order, RoomOf(b), |order|) {
      forall t, u | ShareRoom(b, t, u) ensures t == u {
        var i :| 0 <= i < |order| && order[i] == t;
        var j :| 0 <= j < |order| && order[j] == u;
        assert RoomOf(b)(order[i]) == RoomOf(b)(order[j]);
      }
    }
    if forall t, u :: ShareRoom(b, t, u) ==> t == u {
      forall i, j | 0 <= i < j < |order| ensures RoomOf(b)(order[i]) != RoomOf(b)(order[j]) {
        assert !ShareRoom(b, order[i], order[j]);
      }
    }
  }

  /** Every reported problem is there, and a bundle is accepted exactly when its registries are
      consistent. */
  method ValidateRelationships(b: Bundle) returns (errors: seq<Problem>)
    requires ValidBundle(b)
    ensures AllReal(b, errors)
    ensures errors == [] <==> Consistent(b)
  {
    var agents := CheckAgents(b);
    var teams := CheckTeams(b);
    var projects := CheckProjects(b);
    var rooms := CheckRooms(b);
    NoSharedWorkspace(b);
    NoSharedRoom(b);
    errors := agents + teams + projects + rooms;
    hide AgentOk, TeamOk, ProjectOk, NoShares, Real, ShareWorkspace, ShareRoom;
  }

  // ---------------------------------------------------------------- what consistency gives

  /** The team owns the project. */
  predicate Owns(b: Bundle, team: Identifier, project: Identifier) {
    && team in b.teams.entries && b.teams.entries[team].kind.Product? && project in b.projects.entries
    && b.teams.entries[team].project == Some(project) && b.projects.entries[project].team == team
  }

  /** Product teams and projects correspond one to one, platform teams own nothing. */
  lemma TeamsAndProjectsCorrespond(b: Bundle)
    requires ValidBundle(b) && Consistent(b)
    ensures forall t :: t in b.teams.entries && b.teams.entries[t].kind.Product? ==> Owns(b, t, b.teams.entries[t].project.value)
    ensures forall p :: p in b.projects.entries ==> Owns(b, b.projects.entries[p].team, p)
    ensures forall t, p, q :: Owns(b, t, p) && Owns(b, t, q) ==> p == q
    ensures forall t, u, p :: Owns(b, t, p) && Owns(b, u, p) ==> t == u
  {
    forall t | t in b.teams.entries && b.teams.entries[t].kind.Product? ensures Owns(b, t, b.teams.entries[t].project.value) {
      assert ValidTeam(b.teams.entries[t]) && TeamOk(b, t, b.teams.entries[t]);
    }
    forall p | p in b.projects.entries ensures Owns(b, b.projects.entries[p].team, p) {
      assert ProjectOk(b, p, b.projects.entries[p]);
    }
  }

  predicate Lists(b: Bundle, team: Identifier, agent: Identifier) {
    team in b.teams.entries && agent in b.teams.entries[team].agents
  }

  /** Teams partition the agents: every agent is listed by exactly one team, once, and every listed agent
      is registered with a known permission profile. */
  lemma TeamsPartitionAgents(b: Bundle)
    requires ValidBundle(b) && Consistent(b)
    ensures forall a :: a in b.agents.entries ==> Lists(b, b.agents.entries[a].team, a) && b.agents.entries[a].profile in b.permissions
    ensures forall t, a :: Lists(b, t, a) ==> a in b.agents.entries && b.agents.entries[a].team == t
    ensures forall t :: t in b.teams.entries ==> Distinct(b.teams.entries[t].agents)
  {
    forall a | a in b.agents.entries ensures Lists(b, b.agents.entries[a].team, a) && b.agents.entries[a].profile in b.permissions {
      assert AgentOk(b, a, b.agents.entries[a]);
    }
    forall t, a | Lists(b, t, a) ensures a in b.agents.entries && b.agents.entries[a].team == t {
      assert TeamOk(b, t, b.teams.entries[t]);
      var i :| 0 <= i < |b.teams.entries[t].agents| && b.teams.entries[t].agents[i] == a;
      assert MemberOk(b, t, b.teams.entries[t].agents[i]);
    }
    forall t | t in b.teams.entries ensures Distinct(b.teams.entries[t].agents) {
      assert ValidTeam(b.teams.entries[t]);
    }
  }
}
