/**
 * What the directory shows for two searches over its seed list.
 */
module SeedScenarios {
  import opened Text
  import opened Lists
  import opened AgentsDirectory

  /**
   * A lower-case letter of the lower-cased query that a field lacks in both
   * cases rules the field out.
   */
  lemma FieldMissesByLetter(text: string, query: string, c: char)
    requires IsAsciiLower(c) && c in ToLower(query)
    requires c !in text && UpperChar(c) !in text
    ensures !FieldMatches(text, query)
  {
    LowerOmits(text, c);
    if FieldMatches(text, query) {
      ContainsChars(ToLower(query), ToLower(text), c);
    }
  }

  /**
   * The search text "kwame" comes in as a parameter fixed by `requires` in
   * this and the lemmas below, so the solver does not unroll the literal.
   */
  lemma KwameLetters(query: string)
    requires query == "kwame"
    ensures ToLower(query) == "kwame"
    ensures 'k' in ToLower(query) && 'w' in ToLower(query)
    ensures UpperChar('k') == 'K' && UpperChar('w') == 'W'
  {
    assert ToLower(query) == "kwame";
    assert "kwame"[0] == 'k' && "kwame"[1] == 'w';
  }

  /** No searched field of AlexChen contains 'k' in either case. */
  lemma AlexChenFieldsMissKwame(query: string)
    requires query == "kwame"
    ensures !FieldMatches("Alex Chen", query)
    ensures !FieldMatches("alex.agent.eth", query)
    ensures !FieldMatches("Verified Vendor", query)
    ensures !FieldMatches("Trusted Farmer", query)
  {
    KwameLetters(query);
    FieldMissesByLetter("Alex Chen", query, 'k');
    FieldMissesByLetter("alex.agent.eth", query, 'k');
    FieldMissesByLetter("Verified Vendor", query, 'k');
    FieldMissesByLetter("Trusted Farmer", query, 'k');
  }

  lemma AlexChenMissesKwame(query: string)
    requires query == "kwame"
    ensures !MatchesSearch(AlexChen, query)
  {
    AlexChenFieldsMissKwame(query);
  }

  /** No searched field of SarahKim contains 'w' in either case. */
  lemma SarahKimFieldsMissKwame(query: string)
    requires query == "kwame"
    ensures !FieldMatches("Sarah Kim", query)
    ensures !FieldMatches("sarah.agent.eth", query)
    ensures !FieldMatches("KYC Verified", query)
    ensures !FieldMatches("Privacy Expert", query)
  {
    KwameLetters(query);
    FieldMissesByLetter("Sarah Kim", query, 'w');
    FieldMissesByLetter("sarah.agent.eth", query, 'w');
    FieldMissesByLetter("KYC Verified", query, 'w');
    FieldMissesByLetter("Privacy Expert", query, 'w');
  }

  lemma SarahKimMissesKwame(query: string)
    requires query == "kwame"
    ensures !MatchesSearch(SarahKim, query)
  {
    SarahKimFieldsMissKwame(query);
  }

  /** No searched field of DiegoSantos contains 'k' in either case. */
  lemma DiegoSantosFieldsMissKwame(query: string)
    requires query == "kwame"
    ensures !FieldMatches("Diego Santos", query)
    ensures !FieldMatches("diego.agent.eth", query)
    ensures !FieldMatches("DAO Leader", query)
    ensures !FieldMatches("Community Builder", query)
  {
    KwameLetters(query);
    FieldMissesByLetter("Diego Santos", query, 'k');
    FieldMissesByLetter("diego.agent.eth", query, 'k');
    FieldMissesByLetter("DAO Leader", query, 'k');
    FieldMissesByLetter("Community Builder", query, 'k');
  }

  lemma DiegoSantosMissesKwame(query: string)
    requires query == "kwame"
    ensures !MatchesSearch(DiegoSantos, query)
  {
    DiegoSantosFieldsMissKwame(query);
  }

  /** No searched field of AmaOsei contains 'k' in either case. */
  lemma AmaOseiFieldsMissKwame(query: string)
    requires query == "kwame"
    ensures !FieldMatches("Ama Osei", query)
    ensures !FieldMatches("ama.agent.eth", query)
    ensures !FieldMatches("Verified Vendor", query)
    ensures !FieldMatches("Local Expert", query)
  {
    KwameLetters(query);
    FieldMissesByLetter("Ama Osei", query, 'k');
    FieldMissesByLetter("ama.agent.eth", query, 'k');
    FieldMissesByLetter("Verified Vendor", query, 'k');
    FieldMissesByLetter("Local Expert", query, 'k');
  }

  lemma AmaOseiMissesKwame(query: string)
    requires query == "kwame"
    ensures !MatchesSearch(AmaOsei, query)
  {
    AmaOseiFieldsMissKwame(query);
  }

  /** No searched field of WeiZhang contains 'k' in either case. */
  lemma WeiZhangFieldsMissKwame(query: string)
    requires query == "kwame"
    ensures !FieldMatches("Wei Zhang", query)
    ensures !FieldMatches("wei.agent.eth", query)
    ensures !FieldMatches("DeFi Expert", query)
    ensures !FieldMatches("Multilingual", query)
  {
    KwameLetters(query);
    FieldMissesByLetter("Wei Zhang", query, 'k');
    FieldMissesByLetter("wei.agent.eth", query, 'k');
    FieldMissesByLetter("DeFi Expert", query, 'k');
    FieldMissesByLetter("Multilingual", query, 'k');
  }

  lemma WeiZhangMissesKwame(query: string)
    requires query == "kwame"
    ensures !MatchesSearch(WeiZhang, query)
  {
    WeiZhangFieldsMissKwame(query);
  }

  lemma KwameAsanteMatchesKwame(query: string)
    requires query == "kwame"
    ensures MatchesSearch(KwameAsante, query)
  {
    KwameLetters(query);
    assert ToLower(KwameAsante.name) == "kwame asante";
    assert OccursAt(ToLower(query), ToLower(KwameAsante.name), 0);
  }

  /** Searching the seed list for "kwame" under every role shows only kwame.agent.eth. */
  lemma SearchKwame()
    ensures FilterAgents(SeedAgents, "kwame", AllRoles) == [KwameAsante]
    ensures FilterAgents(SeedAgents, "kwame", AllRoles)[0].ensName == "kwame.agent.eth"
  {
    AlexChenMissesKwame("kwame");
    KwameAsanteMatchesKwame("kwame");
    SarahKimMissesKwame("kwame");
    DiegoSantosMissesKwame("kwame");
    AmaOseiMissesKwame("kwame");
    WeiZhangMissesKwame("kwame");
    var keep := a => Matches(a, "kwame", AllRoles);
    var xs := SeedAgents;
    assert Filter(xs[5..], keep) == [] by { assert xs[5..][1..] == []; }
    assert Filter(xs[4..], keep) == [] by { assert xs[4..][1..] == xs[5..]; }
    assert Filter(xs[3..], keep) == [] by { assert xs[3..][1..] == xs[4..]; }
    assert Filter(xs[2..], keep) == [] by { assert xs[2..][1..] == xs[3..]; }
    assert Filter(xs[1..], keep) == [KwameAsante] by { assert xs[1..][1..] == xs[2..]; }
  }

  /** With an empty query, only the role decides. */
  lemma EmptyQueryMatchesRole(agent: Agent, selectedRole: string)
    ensures Matches(agent, "", selectedRole) <==> MatchesRole(agent, selectedRole)
  {
    assert ToLower("") == [];
    ContainsEmpty(ToLower(agent.name));
  }

  lemma PaymentRoles(role: string)
    requires role == "Payment Agent"
    ensures MatchesRole(AlexChen, role) && MatchesRole(AmaOsei, role)
    ensures !MatchesRole(KwameAsante, role) && !MatchesRole(SarahKim, role)
    ensures !MatchesRole(DiegoSantos, role) && !MatchesRole(WeiZhang, role)
  {
  }

  /** Filtering a list of six agents, one agent at a time. */
  lemma FilterSix(a0: Agent, a1: Agent, a2: Agent, a3: Agent, a4: Agent, a5: Agent, keep: Agent -> bool)
    ensures Filter([a0, a1, a2, a3, a4, a5], keep) ==
      Filter([a0], keep) + Filter([a1], keep) + Filter([a2], keep)
      + Filter([a3], keep) + Filter([a4], keep) + Filter([a5], keep)
  {
    assert [a0, a1, a2, a3, a4, a5] == [a0] + [a1] + [a2] + [a3] + [a4] + [a5];
    FilterConcat([a0] + [a1] + [a2] + [a3] + [a4], [a5], keep);
    FilterConcat([a0] + [a1] + [a2] + [a3], [a4], keep);
    FilterConcat([a0] + [a1] + [a2], [a3], keep);
    FilterConcat([a0] + [a1], [a2], keep);
    FilterConcat([a0], [a1], keep);
  }

  /** The "Payment Agent" button with an empty query shows Alex Chen, then Ama Osei. */
  lemma PaymentAgents()
    ensures FilterAgents(SeedAgents, "", "Payment Agent") == [AlexChen, AmaOsei]
  {
    var role := "Payment Agent";
    var keep := a => Matches(a, "", role);
    PaymentRoles(role);
    EmptyQueryMatchesRole(AlexChen, role);
    EmptyQueryMatchesRole(KwameAsante, role);
    EmptyQueryMatchesRole(SarahKim, role);
    EmptyQueryMatchesRole(DiegoSantos, role);
    EmptyQueryMatchesRole(AmaOsei, role);
    EmptyQueryMatchesRole(WeiZhang, role);
    FilterSix(AlexChen, KwameAsante, SarahKim, DiegoSantos, AmaOsei, WeiZhang, keep);
  }
}
