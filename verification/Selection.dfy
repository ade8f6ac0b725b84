/** Selection of the one developer a task may be given to (orchestrator/selection.py). */
module Selection {
  import opened Wrappers
  import opened Lifecycle
  import opened Configuration
  import opened StoreModel
  import Workers

  const REQUIRED := {Read, Write, Execute, Git}
  const PROHIBITED := {Network, Deploy, Admin}

  predicate Eligible(b: Bundle, id: Identifier) {
    && id in b.agents.entries
    && var a := b.agents.entries[id];
       && a.enabled && a.role == "developer" && a.runtime.Codex? && a.policy.ProjectWorkspace?
       && a.profile in b.permissions
       && REQUIRED <= b.permissions[a.profile] && b.permissions[a.profile] !! PROHIBITED
  }

  predicate EligibleMember(b: Bundle, team: Identifier, id: Identifier) {
    Lists(b, team, id) && Eligible(b, id)
  }

  /** The agent is the only eligible member of the product team that owns the project. */
  ghost predicate Selects(b: Bundle, project: Identifier, team: Identifier, id: Identifier) {
    && Configuration.Owns(b, team, project) && EligibleMember(b, team, id)
    && forall other :: EligibleMember(b, team, other) ==> other == id
  }

  /** The choice a configuration makes, as the workers use it. */
  ghost function ChooserOf(b: Bundle): Workers.Chooser {
    (project, team) => Chosen(b, project, team)
  }

  ghost function Chosen(b: Bundle, project: Identifier, team: Identifier): (r: Option<Identifier>)
    ensures r.Some? ==> Selects(b, project, team, r.value)
    ensures r.None? ==> forall id :: !Selects(b, project, team, id)
  {
    if id :| Selects(b, project, team, id) then Some(id) else None
  }

  /** The eligible members of a team, each once, in order of their names. */
  method EligibleMembers(b: Bundle, team: Identifier) returns (candidates: seq<Identifier>)
    requires ValidBundle(b) && Consistent(b) && team in b.teams.entries
    ensures Distinct(candidates) && forall id :: id in candidates <==> EligibleMember(b, team, id)
  {
    var members := set i | 0 <= i < |b.teams.entries[team].agents| :: b.teams.entries[team].agents[i];
    var order := SelectOrdered(members);
    InOrderLists(members);
    TeamsPartitionAgents(b);
    hide InOrder, Consistent, ValidBundle;
    assert forall id :: id in order <==> Lists(b, team, id);
    candidates := [];
    for i := 0 to |order|
      invariant Distinct(candidates)
      invariant forall id :: id in candidates <==> id in order[..i] && Eligible(b, id)
    {
      var id := order[i];
      assert id in order && Lists(b, team, id);
      var agent := b.agents.entries[id];
      var capabilities := b.permissions[agent.profile];
      assert order[..i + 1] == order[..i] + [id];
      NotRepeated(order, i);
      if agent.enabled && agent.role == "developer" && agent.runtime.Codex? && agent.policy.ProjectWorkspace?
         && REQUIRED <= capabilities && capabilities !! PROHIBITED {
        candidates := candidates + [id];
      }
    }
    assert order[..|order|] == order;
  }

  /** A list of the eligible members decides the choice: it exists exactly when there is one of them. */
  lemma OneCandidateDecides(b: Bundle, project: Identifier, team: Identifier, candidates: seq<Identifier>)
    requires Configuration.Owns(b, team, project) && Distinct(candidates)
    requires forall id :: id in candidates <==> EligibleMember(b, team, id)
    ensures Chosen(b, project, team) == if |candidates| == 1 then Some(candidates[0]) else None
  {
    hide EligibleMember;
    if |candidates| == 1 {
      assert candidates[0] in candidates;
      assert Selects(b, project, team, candidates[0]);
    } else if |candidates| > 1 {
      assert candidates[0] in candidates && candidates[1] in candidates && candidates[0] != candidates[1];
    }
  }

  /** In a consistent configuration the lookups never miss, and the result is the choice above: it does
      not depend on the order in which agents are registered or listed. */
  method SelectDeveloper(b: Bundle, project: Identifier, team: Identifier) returns (r: Result<Identifier>)
    requires ValidBundle(b) && Consistent(b)
    ensures match ChooserOf(b)(project, team)
            case Some(id) => r == Ok(id)
            case None => r == Err(NotFound)
  {
    hide EligibleMember, Consistent, ValidBundle;
    if team !in b.teams.entries || !b.teams.entries[team].kind.Product? { return Err(NotFound); }
    if project !in b.projects.entries || b.projects.entries[project].team != team
       || b.teams.entries[team].project != Some(project) { return Err(NotFound); }
    var candidates := EligibleMembers(b, team);
    OneCandidateDecides(b, project, team, candidates);
    if candidates == [] { return Err(NotFound); }
    if |candidates| > 1 { return Err(NotFound); }
    return Ok(candidates[0]);
  }

  /** Whoever is chosen works for the team that owns the project, and nobody else does so eligibly. */
  lemma ChoiceIsLocal(b: Bundle, project: Identifier, team: Identifier, id: Identifier)
    requires ValidBundle(b) && Consistent(b) && ChooserOf(b)(project, team) == Some(id)
    ensures b.agents.entries[id].team == team && b.projects.entries[project].team == team
    ensures forall t :: ChooserOf(b)(project, t).Some? ==> t == team
    ensures forall p :: ChooserOf(b)(p, team).Some? ==> p == project
  {
    TeamsPartitionAgents(b);
    TeamsAndProjectsCorrespond(b);
    hide Consistent, ValidBundle;
    forall t | ChooserOf(b)(project, t).Some? ensures t == team {
      assert Configuration.Owns(b, t, project);
    }
    forall p | ChooserOf(b)(p, team).Some? ensures p == project {
      assert Configuration.Owns(b, team, p);
    }
  }
}
