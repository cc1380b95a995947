/**
 * The agent directory: a fixed list of agent records, filtered by a free-text
 * query and a role category (`filteredAgents` in AgentsDirectory.tsx).
 */
module AgentsDirectory {
  import opened Text
  import opened Lists

  /** One directory entry. */
  datatype Agent = Agent(
    name: string,
    ensName: string,
    role: string,
    rating: real,
    reviews: nat,
    badges: seq<string>,
    isOnline: bool,
    description: string)

  /** The role value that selects every role. */
  const AllRoles: string := "all"

  /** The role buttons, in display order. */
  const Roles: seq<string> := [AllRoles, "Payment Agent", "AI Assistant", "Identity Agent", "Community Agent"]

  // The seed list the component renders, one record per agent.
  const AlexChen := Agent("Alex Chen", "alex.agent.eth", "Payment Agent", 4.9, 127,
    ["Verified Vendor", "Trusted Farmer"], true,
    "Specialized in cross-border payments and DeFi integrations with 5+ years experience.")
  const KwameAsante := Agent("Kwame Asante", "kwame.agent.eth", "AI Assistant", 4.8, 89,
    ["Code Expert", "24/7 Available"], true,
    "Advanced AI assistant for smart contract interactions and blockchain automation.")
  const SarahKim := Agent("Sarah Kim", "sarah.agent.eth", "Identity Agent", 4.9, 156,
    ["KYC Verified", "Privacy Expert"], false,
    "Identity verification and credential management specialist with strong privacy focus.")
  const DiegoSantos := Agent("Diego Santos", "diego.agent.eth", "Community Agent", 4.7, 203,
    ["DAO Leader", "Community Builder"], true,
    "Community coordination and DAO governance expert helping organizations scale.")
  const AmaOsei := Agent("Ama Osei", "ama.agent.eth", "Payment Agent", 5.0, 78,
    ["Verified Vendor", "Local Expert"], true,
    "Local payment specialist focusing on African markets and mobile money integration.")
  const WeiZhang := Agent("Wei Zhang", "wei.agent.eth", "AI Assistant", 4.8, 94,
    ["DeFi Expert", "Multilingual"], true,
    "Multilingual AI assistant specialized in DeFi protocols and yield optimization strategies.")

  const SeedAgents: seq<Agent> := [AlexChen, KwameAsante, SarahKim, DiegoSantos, AmaOsei, WeiZhang]

  /** `text.toLowerCase().includes(query.toLowerCase())` */
  predicate FieldMatches(text: string, query: string) {
    Contains(ToLower(query), ToLower(text))
  }

  /** `badges.some(badge => ...)` */
  predicate SomeBadgeMatches(badges: seq<string>, query: string) {
    exists i :: 0 <= i < |badges| && FieldMatches(badges[i], query)
  }

  predicate MatchesSearch(agent: Agent, query: string) {
    || FieldMatches(agent.name, query)
    || FieldMatches(agent.ensName, query)
    || SomeBadgeMatches(agent.badges, query)
  }

  predicate MatchesRole(agent: Agent, selectedRole: string) {
    selectedRole == AllRoles || agent.role == selectedRole
  }

  predicate Matches(agent: Agent, query: string, selectedRole: string) {
    MatchesSearch(agent, query) && MatchesRole(agent, selectedRole)
  }

  /** `filteredAgents` */
  function FilterAgents(agents: seq<Agent>, query: string, selectedRole: string): seq<Agent> {
    Filter(agents, a => Matches(a, query, selectedRole))
  }

  /**
   * The directory shows the agents at exactly the positions that match both
   * predicates, in list order.
   */
  lemma FilterAgentsSelectsInOrder(agents: seq<Agent>, query: string, selectedRole: string)
    returns (idx: seq<nat>)
    ensures |idx| == |FilterAgents(agents, query, selectedRole)| <= |agents|
    ensures forall i :: 0 <= i < |idx| ==>
      idx[i] < |agents| && FilterAgents(agents, query, selectedRole)[i] == agents[idx[i]]
    ensures forall i, j :: 0 <= i < j < |idx| ==> idx[i] < idx[j]
    ensures forall k :: 0 <= k < |agents| ==> (k in idx <==> Matches(agents[k], query, selectedRole))
  {
    assert agents[0..] == agents;
    idx := FilterSelectsFrom(agents, a => Matches(a, query, selectedRole), 0);
  }

  /** An agent is shown exactly when it is in the list and matches both predicates. */
  lemma AgentShownIff(agents: seq<Agent>, query: string, selectedRole: string, a: Agent)
    ensures a in FilterAgents(agents, query, selectedRole) <==> a in agents && Matches(a, query, selectedRole)
  {
    FilterMembership(agents, x => Matches(x, query, selectedRole), a);
  }

  /** The role predicate: `"all"` admits every agent, any other value only agents of that role. */
  lemma MatchesRoleIff(agent: Agent, selectedRole: string)
    ensures selectedRole == AllRoles ==> MatchesRole(agent, selectedRole)
    ensures selectedRole != AllRoles ==> (MatchesRole(agent, selectedRole) <==> agent.role == selectedRole)
  {
  }

  /** The initial state of the page (empty query, role "all") shows the whole list. */
  lemma FilterNothing(agents: seq<Agent>)
    ensures FilterAgents(agents, "", AllRoles) == agents
  {
    assert ToLower("") == [];
    forall a | a in agents ensures Matches(a, "", AllRoles) {
      ContainsEmpty(ToLower(a.name));
    }
    FilterKeepsAll(agents, a => Matches(a, "", AllRoles));
  }

  /** Searching is insensitive to the case of ASCII letters in the query. */
  lemma FilterIgnoresQueryCase(agents: seq<Agent>, query: string, selectedRole: string)
    ensures FilterAgents(agents, ToUpper(query), selectedRole) == FilterAgents(agents, query, selectedRole)
    ensures FilterAgents(agents, ToLower(query), selectedRole) == FilterAgents(agents, query, selectedRole)
  {
    LowerOfUpper(query);
    LowerIdempotent(query);
    FilterCongruent(agents, a => Matches(a, ToUpper(query), selectedRole), a => Matches(a, query, selectedRole));
    FilterCongruent(agents, a => Matches(a, ToLower(query), selectedRole), a => Matches(a, query, selectedRole));
  }

  /** Filtering the shown list again with the same query and role shows the same list. */
  lemma FilterAgentsIdempotent(agents: seq<Agent>, query: string, selectedRole: string)
    ensures FilterAgents(FilterAgents(agents, query, selectedRole), query, selectedRole)
         == FilterAgents(agents, query, selectedRole)
  {
    FilterIdempotent(agents, a => Matches(a, query, selectedRole));
  }

  /** A role listed on one of the concrete role buttons (every button but "all"). */
  predicate HasListedRole(agent: Agent) {
    agent.role in Roles[1..]
  }

  /**
   * With an empty query, the four concrete role buttons split a list whose
   * roles are all listed: each agent is shown under exactly one of them.
   */
  lemma {:induction false} RoleButtonsPartition(agents: seq<Agent>)
    requires forall a :: a in agents ==> HasListedRole(a)
    ensures |FilterAgents(agents, "", Roles[1])| + |FilterAgents(agents, "", Roles[2])|
          + |FilterAgents(agents, "", Roles[3])| + |FilterAgents(agents, "", Roles[4])| == |agents|
  {
    if agents != [] {
      assert ToLower("") == [];
      ContainsEmpty(ToLower(agents[0].name));
      assert HasListedRole(agents[0]);
      RoleButtonsPartition(agents[1..]);
    }
  }

  lemma SeedRolesListed()
    ensures forall a :: a in SeedAgents ==> HasListedRole(a)
  {
  }
}
