/** The systematic-research agent's decision logic
    (behavioral/systematic_research.rs): intent parsing, the evidence
    threshold filter, de-duplication, evidence validation, the PRISMA checks,
    topic clustering and the evidence-strength bands. */
module SystematicResearch {
  import opened Common
  import opened Behavioral

  // ---------------------------------------------------------------------
  // Data
  // ---------------------------------------------------------------------

  datatype Finding = Finding(
    id: string,
    title: string,
    content: string,
    conclusions: seq<string>,
    evidence: seq<Evidence>,
    topic: Option<string>)

  datatype SearchQuery = SearchQuery(text: string, domain: string, scope: string, maxSources: nat)

  datatype SearchStrategy = AcademicSources | OfficialDocumentation | ExpertOpinions | TechnicalSources

  datatype ResearchMethodology = Systematic | Narrative | Meta | Scoping

  /** The integer part of QualityMetrics; the average credibility and bias
      score are floating point and not modelled. */
  datatype QualityMetrics = QualityMetrics(totalSources: nat, highQualitySources: nat)

  datatype SearchResults = SearchResults(
    query: SearchQuery,
    findings: seq<Finding>,
    evidence: seq<Evidence>,
    methodology: ResearchMethodology,
    qualityMetrics: QualityMetrics)

  datatype ValidationConfig = ValidationConfig(
    minimumSources: nat,
    requiredCredibility: CredibilityRating,
    enableBiasDetection: bool,
    crossValidationThreshold: real)

  /** ValidationResult without its floating-point confidence score. */
  datatype ValidationResult = ValidationResult(overallStatus: ValidationStatus, checks: seq<ValidationCheck>)

  /** A PRISMA phase check; `count` is the number its details text reports. */
  datatype PrismaCheck = PrismaCheck(phase: string, criteriaMet: bool, details: string, automated: bool)

  datatype PrismaValidation = PrismaValidation(
    checks: map<string, PrismaCheck>, overallCompliance: bool, methodologyVersion: string)

  datatype EvidenceStrength = Strong | Moderate | Weak

  datatype SystematicResearchAgent = SystematicResearchAgent(
    agentId: Uuid,
    searchStrategies: seq<SearchStrategy>,
    validationConfig: ValidationConfig,
    evidenceThreshold: CredibilityRating)

  // ---------------------------------------------------------------------
  // Construction and the AgentBehavior interface
  // ---------------------------------------------------------------------

  /** `SystematicResearchAgent::new`; the fresh agent id is supplied. */
  function NewAgent(validationConfig: ValidationConfig, agentId: Uuid): SystematicResearchAgent {
    SystematicResearchAgent(
      agentId,
      [AcademicSources, SearchStrategy.OfficialDocumentation, ExpertOpinions, TechnicalSources],
      validationConfig,
      B3)
  }

  /** `new` keeps the validation configuration but fixes the evidence
      threshold at B3, whatever credibility the configuration requires. */
  lemma NewAgentThresholdIsB3(c1: ValidationConfig, c2: ValidationConfig, id: Uuid)
    ensures NewAgent(c1, id).evidenceThreshold == B3
    ensures NewAgent(c1, id).evidenceThreshold == NewAgent(c2, id).evidenceThreshold
    ensures NewAgent(c1, id).validationConfig == c1
  {
  }

  const ResearchCapabilities: seq<string> :=
    ["systematic_research", "evidence_validation", "prisma_methodology", "cross_validation"]

  /** `get_state` */
  function GetState(agent: SystematicResearchAgent): AgentState {
    AgentState(agent.agentId, Idle, ResearchCapabilities, None)
  }

  /** `can_handle` */
  predicate CanHandle(agent: SystematicResearchAgent, intent: Intent) {
    intent.actionType in {"research", "investigate", "analyze", "study"}
  }

  /** No occurrence of `p` in `s` when `s` lacks one of the characters of `p`. */
  lemma NotContainsMissingChar(s: string, p: string, c: char)
    requires c in p && c !in s
    ensures !Contains(s, p)
  {
    var j :| 0 <= j < |p| && p[j] == c;
    forall i | 0 <= i <= |s| - |p| ensures !OccursAt(s, p, i) {
      assert s[i..i + |p|][j] == s[i + j];
      assert s[i + j] in s;
    }
    ContainsAt(s, p);
  }

  /** Of the four intents `can_handle` accepts, only "research" occurs inside
      one of the capabilities the agent reports ("systematic_research"). */
  lemma ResearchMatchesCapability(agent: SystematicResearchAgent)
    ensures Contains(GetState(agent).capabilities[0], "research")
  {
    var s := "systematic_research";
    assert OccursAt(s, "research", 11);
    ContainsAt(s, "research");
  }

  /** Each other intent `can_handle` accepts occurs in none of the reported
      capabilities, so capability routing never selects this agent for it. */
  lemma OtherIntentsMatchNoCapability(agent: SystematicResearchAgent, intent: Intent)
    requires CanHandle(agent, intent) && intent.actionType != "research"
    ensures forall c :: c in GetState(agent).capabilities ==> !Contains(c, intent.actionType)
  {
    forall c | c in ResearchCapabilities ensures !Contains(c, intent.actionType) {
      CapabilityLacksIntent(c, intent.actionType);
    }
  }

  lemma CapabilityLacksIntent(c: string, a: string)
    requires c in ResearchCapabilities && a in {"investigate", "analyze", "study"}
    ensures !Contains(c, a)
  {
    if a == "analyze" {
      NotContainsMissingChar(c, a, 'z');
    } else if a == "study" {
      NotContainsMissingChar(c, a, 'u');
    } else if c == ResearchCapabilities[0] || c == ResearchCapabilities[2] {
      NotContainsMissingChar(c, a, 'v');
    } else {
      NotContainsMissingChar(c, a, 'g');
    }
  }

  // ---------------------------------------------------------------------
  // Intent parsing
  // ---------------------------------------------------------------------

  /** `parse_search_intent`: the query text is required; domain, scope and
      max_sources fall back to "general", "comprehensive" and 20. */
  function ParseSearchIntent(agent: SystematicResearchAgent, intent: Intent): (r: Result<SearchQuery, AgentError>)
    ensures r.Err? <==> !("query" in intent.parameters && intent.parameters["query"].Str?)
    ensures r.Err? ==> r.error == Internal("Missing query parameter")
    ensures r.Ok? ==> r.value.text == intent.parameters["query"].s
    ensures r.Ok? && "domain" in intent.parameters && intent.parameters["domain"].Str? ==>
      r.value.domain == intent.parameters["domain"].s
    ensures r.Ok? && !("domain" in intent.parameters && intent.parameters["domain"].Str?) ==>
      r.value.domain == "general"
    ensures r.Ok? && "scope" in intent.parameters && intent.parameters["scope"].Str? ==>
      r.value.scope == intent.parameters["scope"].s
    ensures r.Ok? && !("scope" in intent.parameters && intent.parameters["scope"].Str?) ==>
      r.value.scope == "comprehensive"
    ensures r.Ok? && "max_sources" in intent.parameters && AsU64(intent.parameters["max_sources"]).Some? ==>
      r.value.maxSources == intent.parameters["max_sources"].n
    ensures r.Ok? && !("max_sources" in intent.parameters && AsU64(intent.parameters["max_sources"]).Some?) ==>
      r.value.maxSources == 20
  {
    var params := intent.parameters;
    match GetStr(params, "query")
    case None => Err(Internal("Missing query parameter"))
    case Some(text) =>
      var domain := GetStr(params, "domain");
      var scope := GetStr(params, "scope");
      var maxSources := if "max_sources" in params then AsU64(params["max_sources"]) else None;
      Ok(SearchQuery(
        text,
        if domain.Some? then domain.value else "general",
        if scope.Some? then scope.value else "comprehensive",
        if maxSources.Some? then maxSources.value else 20))
  }

  // ---------------------------------------------------------------------
  // Threshold filter and the systematic search
  // ---------------------------------------------------------------------

  /** Some evidence item of the finding meets the threshold. */
  predicate HasEvidenceMeeting(f: Finding, threshold: CredibilityRating) {
    exists i :: 0 <= i < |f.evidence| && MeetsThreshold(f.evidence[i].credibilityRating, threshold)
  }

  /** The filter applied to each strategy's findings. */
  function PassingThreshold(findings: seq<Finding>, threshold: CredibilityRating): seq<Finding> {
    Filter(findings, f => HasEvidenceMeeting(f, threshold))
  }

  /** The threshold filter keeps, in order, exactly the findings with some
      evidence meeting the threshold. */
  lemma PassingThresholdSpec(findings: seq<Finding>, threshold: CredibilityRating)
    ensures IsSubsequence(PassingThreshold(findings, threshold), findings)
    ensures forall f :: f in PassingThreshold(findings, threshold) <==>
      f in findings && HasEvidenceMeeting(f, threshold)
  {
    FilterSpec(findings, f => HasEvidenceMeeting(f, threshold));
  }

  lemma PassingThresholdAppend(a: seq<Finding>, b: seq<Finding>, threshold: CredibilityRating)
    ensures PassingThreshold(a + b, threshold) == PassingThreshold(a, threshold) + PassingThreshold(b, threshold)
  {
    FilterAppend(a, b, f => HasEvidenceMeeting(f, threshold));
  }

  /** Findings of every strategy, concatenated in strategy order. */
  function StrategyFindings(
    strategies: seq<SearchStrategy>, query: SearchQuery,
    search: (SearchStrategy, SearchQuery) -> SearchResults): seq<Finding>
  {
    if strategies == [] then []
    else StrategyFindings(strategies[..|strategies| - 1], query, search)
         + search(strategies[|strategies| - 1], query).findings
  }

  /** Evidence of every strategy, concatenated in strategy order. */
  function StrategyEvidence(
    strategies: seq<SearchStrategy>, query: SearchQuery,
    search: (SearchStrategy, SearchQuery) -> SearchResults): seq<Evidence>
  {
    if strategies == [] then []
    else StrategyEvidence(strategies[..|strategies| - 1], query, search)
         + search(strategies[|strategies| - 1], query).evidence
  }

  /** The `A1..=B3` range pattern of `calculate_quality_metrics` and the
      screening phase. */
  predicate IsHighQualityEvidence(e: Evidence) {
    InDeclarationRange(e.credibilityRating, A1, B3)
  }

  /** `execute_systematic_search`: each strategy's findings are filtered by
      the agent's threshold and accumulated, the evidence of every strategy is
      kept, and the accumulated findings are de-duplicated. The strategy
      results come from `search` (the mock searches are not modelled). */
  method ExecuteSystematicSearch(
    agent: SystematicResearchAgent, query: SearchQuery,
    search: (SearchStrategy, SearchQuery) -> SearchResults,
    overlap: (Finding, Finding) -> bool)
    returns (r: SearchResults)
    ensures r.query == query && r.methodology == Systematic
    ensures r.findings == Dedup(
      PassingThreshold(StrategyFindings(agent.searchStrategies, query, search), agent.evidenceThreshold), overlap)
    ensures r.evidence == StrategyEvidence(agent.searchStrategies, query, search)
    ensures forall f :: f in r.findings ==> HasEvidenceMeeting(f, agent.evidenceThreshold)
    ensures r.qualityMetrics == QualityMetrics(|r.evidence|, Count(r.evidence, IsHighQualityEvidence))
  {
    var strategies := agent.searchStrategies;
    var allFindings: seq<Finding> := [];
    var allEvidence: seq<Evidence> := [];
    for i := 0 to |strategies|
      invariant allFindings == PassingThreshold(StrategyFindings(strategies[..i], query, search), agent.evidenceThreshold)
      invariant allEvidence == StrategyEvidence(strategies[..i], query, search)
    {
      var results := search(strategies[i], query);
      assert strategies[..i + 1][..i] == strategies[..i];
      PassingThresholdAppend(StrategyFindings(strategies[..i], query, search), results.findings, agent.evidenceThreshold);
      allFindings := allFindings + PassingThreshold(results.findings, agent.evidenceThreshold);
      allEvidence := allEvidence + results.evidence;
    }
    assert strategies[..|strategies|] == strategies;
    var unique := DeduplicateFindings(allFindings, overlap);
    PassingThresholdSpec(StrategyFindings(strategies, query, search), agent.evidenceThreshold);
    DedupSubsequence(allFindings, overlap);
    SubsequenceMembers(unique, allFindings);
    r := SearchResults(query, unique, allEvidence, Systematic,
      QualityMetrics(|allEvidence|, Count(allEvidence, IsHighQualityEvidence)));
  }

  // ---------------------------------------------------------------------
  // De-duplication
  // ---------------------------------------------------------------------

  /** `calculate_similarity(f, existing) > 0.85`. Equal titles give 1.0; the
      word-overlap ratio, computed only when both contents are longer than 50
      bytes of UTF-8, is abstracted as `overlap`. */
  predicate IsDuplicate(f: Finding, existing: Finding, overlap: (Finding, Finding) -> bool) {
    f.title == existing.title ||
    (Utf8Length(f.content) > 50 && Utf8Length(existing.content) > 50 && overlap(f, existing))
  }

  /** The length gate counts bytes, not characters: two findings whose
      contents are 30 two-byte characters each (60 bytes) reach the overlap
      test, while 30 ASCII characters each do not. */
  lemma {:induction false} DuplicateGateCountsBytes(f: Finding, g: Finding, overlap: (Finding, Finding) -> bool)
    requires f.title != g.title
    requires |f.content| == 30 && |g.content| == 30
    ensures (forall i :: 0 <= i < 30 ==> f.content[i] == '\U{E9}' && g.content[i] == '\U{E9}') ==>
      (IsDuplicate(f, g, overlap) <==> overlap(f, g))
    ensures (forall i :: 0 <= i < 30 ==> f.content[i] as int < 0x80) ==> !IsDuplicate(f, g, overlap)
  {
    if forall i :: 0 <= i < 30 ==> f.content[i] == '\U{E9}' && g.content[i] == '\U{E9}' {
      TwoByteLength(f.content);
      TwoByteLength(g.content);
    }
    Utf8LengthBounds(f.content);
  }

  /** A string of two-byte characters takes twice its length in bytes. */
  lemma {:induction false} TwoByteLength(s: string)
    requires forall i :: 0 <= i < |s| ==> s[i] == '\U{E9}'
    ensures Utf8Length(s) == 2 * |s|
    decreases |s|
  {
    if s != [] {
      TwoByteLength(s[..|s| - 1]);
    }
  }

  /** `unique_findings.iter().any(|existing| ...)` */
  predicate AnyDuplicate(f: Finding, unique: seq<Finding>, overlap: (Finding, Finding) -> bool) {
    exists i :: 0 <= i < |unique| && IsDuplicate(f, unique[i], overlap)
  }

  /** The findings `deduplicate_findings` keeps from `s`. */
  function Dedup(s: seq<Finding>, overlap: (Finding, Finding) -> bool): seq<Finding> {
    if s == [] then []
    else
      var kept := Dedup(s[..|s| - 1], overlap);
      if AnyDuplicate(s[|s| - 1], kept, overlap) then kept else kept + [s[|s| - 1]]
  }

  /** De-duplication keeps an order-preserving subsequence that starts with
      the first finding. */
  lemma {:induction false} DedupSubsequence(s: seq<Finding>, overlap: (Finding, Finding) -> bool)
    ensures IsSubsequence(Dedup(s, overlap), s)
    ensures s != [] ==> Dedup(s, overlap) != [] && Dedup(s, overlap)[0] == s[0]
    decreases |s|
  {
    if s != [] {
      var s' := s[..|s| - 1];
      var x := s[|s| - 1];
      DedupSubsequence(s', overlap);
      assert s == s' + [x];
      SubsequenceSnoc(Dedup(s', overlap), s', x, !AnyDuplicate(x, Dedup(s', overlap), overlap));
      if s' == [] {
        assert Dedup(s', overlap) == [];
      }
    }
  }

  /** No kept finding is a duplicate of a finding kept before it, so no two
      kept findings share a title. */
  lemma {:induction false} DedupDistinct(s: seq<Finding>, overlap: (Finding, Finding) -> bool)
    ensures forall i, j :: 0 <= i < j < |Dedup(s, overlap)| ==>
      !IsDuplicate(Dedup(s, overlap)[j], Dedup(s, overlap)[i], overlap)
    ensures forall i, j :: 0 <= i < j < |Dedup(s, overlap)| ==>
      Dedup(s, overlap)[i].title != Dedup(s, overlap)[j].title
    decreases |s|
  {
    if s != [] {
      DedupDistinct(s[..|s| - 1], overlap);
    }
  }

  /** Only findings that duplicate a kept finding are dropped. */
  lemma {:induction false} DedupCovers(s: seq<Finding>, overlap: (Finding, Finding) -> bool)
    ensures forall x :: x in s ==> x in Dedup(s, overlap) || AnyDuplicate(x, Dedup(s, overlap), overlap)
    decreases |s|
  {
    if s != [] {
      var s' := s[..|s| - 1];
      var kept := Dedup(s', overlap);
      var r := Dedup(s, overlap);
      DedupCovers(s', overlap);
      assert s == s' + [s[|s| - 1]];
      assert kept <= r;
      forall y | y in s ensures y in r || AnyDuplicate(y, r, overlap) {
        if y in s' && y !in kept {
          var i :| 0 <= i < |kept| && IsDuplicate(y, kept[i], overlap);
          assert r[i] == kept[i];
        } else if y in s' {
          var i :| 0 <= i < |kept| && kept[i] == y;
          assert r[i] == y;
        }
      }
    }
  }

  /** `deduplicate_findings`: a finding is kept when it is not a duplicate of
      any finding kept before it. */
  method DeduplicateFindings(findings: seq<Finding>, overlap: (Finding, Finding) -> bool)
    returns (unique: seq<Finding>)
    ensures unique == Dedup(findings, overlap)
    ensures IsSubsequence(unique, findings)
    ensures findings != [] ==> unique != [] && unique[0] == findings[0]
    ensures forall i, j :: 0 <= i < j < |unique| ==> unique[i].title != unique[j].title
  {
    unique := [];
    for k := 0 to |findings|
      invariant unique == Dedup(findings[..k], overlap)
    {
      assert findings[..k + 1][..k] == findings[..k];
      var isDuplicate := AnyDuplicate(findings[k], unique, overlap);
      if !isDuplicate {
        unique := unique + [findings[k]];
      }
    }
    assert findings[..|findings|] == findings;
    DedupSubsequence(findings, overlap);
    DedupDistinct(findings, overlap);
  }

  // ---------------------------------------------------------------------
  // Evidence validation
  // ---------------------------------------------------------------------

  /** Debug text of a rating, such as "B3". */
  function RatingName(r: CredibilityRating): string {
    var letter := match r.letter case A => 'A' case B => 'B' case C => 'C' case D => 'D' case E => 'E' case F => 'F';
    [letter, ('0' as int + r.digit) as char]
  }

  /** Some check has status Failed. */
  predicate AnyFailed(checks: seq<ValidationCheck>) {
    exists i :: 0 <= i < |checks| && checks[i].status == ValidationStatus.Failed
  }

  /** `validate_evidence_quality`. The bias score and the age of the evidence
      come from word counting and the clock; only whether the bias score is
      below 0.3 (`lowBias`) and whether the evidence is younger than 365 days
      (`recent`) are modelled. */
  function ValidateEvidenceQuality(
    agent: SystematicResearchAgent, evidence: Evidence, lowBias: bool, recent: bool): ValidationResult
  {
    var checks := [
      ValidationCheck(
        SourceCredibility,
        if MeetsThreshold(evidence.credibilityRating, agent.evidenceThreshold) then Passed else ValidationStatus.Failed,
        "Credibility rating: " + RatingName(evidence.credibilityRating),
        true),
      ValidationCheck(BiasAssessment, if lowBias then Passed else Warning, "", true),
      ValidationCheck(TemporalRelevance, if recent then Passed else Warning, "", true)
    ];
    ValidationResult(if AnyFailed(checks) then ValidationStatus.Failed else Passed, checks)
  }

  /** The overall status is Failed exactly when the credibility check fails;
      the bias and age checks can only warn, and a warning never shows in the
      overall status. */
  lemma ValidationFailsOnlyOnCredibility(
    agent: SystematicResearchAgent, evidence: Evidence, lowBias: bool, recent: bool)
    ensures ValidateEvidenceQuality(agent, evidence, lowBias, recent).overallStatus == ValidationStatus.Failed <==>
      !MeetsThreshold(evidence.credibilityRating, agent.evidenceThreshold)
    ensures ValidateEvidenceQuality(agent, evidence, lowBias, recent).overallStatus in {Passed, ValidationStatus.Failed}
  {
    var v := ValidateEvidenceQuality(agent, evidence, lowBias, recent);
    if !MeetsThreshold(evidence.credibilityRating, agent.evidenceThreshold) {
      assert AnyFailed(v.checks) by { assert v.checks[0].status == ValidationStatus.Failed; }
    }
  }

  // ---------------------------------------------------------------------
  // PRISMA
  // ---------------------------------------------------------------------

  /** Screening: some evidence in the `A1..=B3` range. */
  predicate HasHighQualityEvidence(f: Finding) {
    exists i :: 0 <= i < |f.evidence| && IsHighQualityEvidence(f.evidence[i])
  }

  /** `assess_relevance`: a constant placeholder score. */
  function AssessRelevance(f: Finding): real {
    0.8
  }

  predicate IsRelevant(f: Finding) {
    AssessRelevance(f) > 0.7
  }

  /** `meets_inclusion_criteria`: some evidence meeting B3. */
  predicate MeetsInclusionCriteria(f: Finding) {
    HasEvidenceMeeting(f, B3)
  }

  /** `apply_prisma_methodology` */
  function ApplyPrismaMethodology(agent: SystematicResearchAgent, findings: seq<Finding>): PrismaValidation {
    var highQuality := Count(findings, HasHighQualityEvidence);
    var relevant := Count(findings, IsRelevant);
    var included := Count(findings, MeetsInclusionCriteria);
    var checks := map[
      "identification" := PrismaCheck("Identification", |findings| >= 3,
        "Found " + NatToString(|findings|) + " sources", true),
      "screening" := PrismaCheck("Screening", highQuality >= 2,
        NatToString(highQuality) + " high-quality sources identified", true),
      "eligibility" := PrismaCheck("Eligibility", relevant >= 2,
        NatToString(relevant) + " relevant sources after eligibility assessment", true),
      "inclusion" := PrismaCheck("Inclusion", included >= 2,
        NatToString(included) + " sources included in final analysis", true)
    ];
    PrismaValidation(
      checks,
      forall k :: k in checks ==> checks[k].criteriaMet,
      "Enhanced PRISMA 2020")
  }

  /** The four PRISMA checks and overall compliance. Since every finding is
      relevant, eligibility only asks for two findings and is implied by
      identification. */
  lemma PrismaChecks(agent: SystematicResearchAgent, findings: seq<Finding>)
    ensures var p := ApplyPrismaMethodology(agent, findings);
      && p.checks.Keys == {"identification", "screening", "eligibility", "inclusion"}
      && (p.checks["identification"].criteriaMet <==> |findings| >= 3)
      && (p.checks["screening"].criteriaMet <==> Count(findings, HasHighQualityEvidence) >= 2)
      && (p.checks["eligibility"].criteriaMet <==> |findings| >= 2)
      && (p.checks["inclusion"].criteriaMet <==> Count(findings, MeetsInclusionCriteria) >= 2)
      && (p.overallCompliance <==>
            |findings| >= 3 && Count(findings, HasHighQualityEvidence) >= 2 &&
            Count(findings, MeetsInclusionCriteria) >= 2)
  {
    FilterAll(findings, IsRelevant);
    var p := ApplyPrismaMethodology(agent, findings);
    if |findings| >= 3 && Count(findings, HasHighQualityEvidence) >= 2 && Count(findings, MeetsInclusionCriteria) >= 2 {
      forall k | k in p.checks ensures p.checks[k].criteriaMet {
      }
    } else {
      assert !p.checks["identification"].criteriaMet || !p.checks["screening"].criteriaMet ||
             !p.checks["inclusion"].criteriaMet;
    }
  }

  /** A finding whose only evidence is rated B1 counts as high quality for
      screening but is not included, and one rated B6 is included without
      being high quality: the two phases use different rating sets. */
  lemma ScreeningAndInclusionDisagree(f: Finding, g: Finding)
    requires |f.evidence| == 1 && f.evidence[0].credibilityRating == B1
    requires |g.evidence| == 1 && g.evidence[0].credibilityRating == B6
    ensures HasHighQualityEvidence(f) && !MeetsInclusionCriteria(f)
    ensures !HasHighQualityEvidence(g) && MeetsInclusionCriteria(g)
  {
    RangeAndThresholdDiffer(B1);
    assert IsHighQualityEvidence(f.evidence[0]);
    assert MeetsThreshold(g.evidence[0].credibilityRating, B3);
  }

  // ---------------------------------------------------------------------
  // Topic clustering
  // ---------------------------------------------------------------------

  function TopicOf(f: Finding): string {
    if f.topic.Some? then f.topic.value else "general"
  }

  /** The findings of `s` whose topic is `topic`, in input order. */
  function TopicMembers(s: seq<Finding>, topic: string): seq<Finding> {
    Filter(s, f => TopicOf(f) == topic)
  }

  /** The map `cluster_findings_by_topic` builds from `s`. */
  function Clusters(s: seq<Finding>): map<string, seq<Finding>> {
    if s == [] then map[]
    else
      var c := Clusters(s[..|s| - 1]);
      var topic := TopicOf(s[|s| - 1]);
      c[topic := (if topic in c then c[topic] else []) + [s[|s| - 1]]]
  }

  /** `cluster_findings_by_topic`: the HashMap entry/push loop. */
  method ClusterFindingsByTopic(findings: seq<Finding>) returns (clusters: map<string, seq<Finding>>)
    ensures clusters == Clusters(findings)
    ensures clusters.Keys == set f | f in findings :: TopicOf(f)
    ensures forall topic :: topic in clusters ==> clusters[topic] == TopicMembers(findings, topic)
  {
    clusters := map[];
    for i := 0 to |findings|
      invariant clusters == Clusters(findings[..i])
    {
      assert findings[..i + 1][..i] == findings[..i];
      var topic := TopicOf(findings[i]);
      var members := if topic in clusters then clusters[topic] else [];
      clusters := clusters[topic := members + [findings[i]]];
    }
    assert findings[..|findings|] == findings;
    ClustersSpec(findings);
  }

  /** Each cluster is keyed by a topic that occurs and holds exactly the
      findings of that topic, in input order. */
  lemma {:induction false} ClustersSpec(s: seq<Finding>)
    ensures Clusters(s).Keys == set f | f in s :: TopicOf(f)
    ensures forall topic :: topic in Clusters(s) ==> Clusters(s)[topic] == TopicMembers(s, topic)
    decreases |s|
  {
    if s != [] {
      var s' := s[..|s| - 1];
      var x := s[|s| - 1];
      ClustersSpec(s');
      assert s == s' + [x];
      forall topic | topic in Clusters(s) ensures Clusters(s)[topic] == TopicMembers(s, topic) {
        FilterAppend(s', [x], f => TopicOf(f) == topic);
        if topic !in Clusters(s') {
          forall i | 0 <= i < |s'| ensures TopicOf(s'[i]) != topic {
            assert s'[i] in s';
          }
          FilterNone(s', f => TopicOf(f) == topic);
        }
      }
    }
  }

  /** Every finding lies in the cluster of its own topic and in no other. */
  lemma ClusterMembership(s: seq<Finding>, f: Finding, topic: string)
    requires topic in Clusters(s)
    ensures f in Clusters(s)[topic] <==> f in s && TopicOf(f) == topic
  {
    ClustersSpec(s);
    FilterSpec(s, g => TopicOf(g) == topic);
  }

  /** Sum of the lengths of a map's sequences. */
  ghost function TotalSize(m: map<string, seq<Finding>>): nat
    decreases |m|
  {
    if m == map[] then 0
    else
      var k :| k in m;
      |m[k]| + TotalSize(m - {k})
  }

  lemma {:induction false} TotalSizeRemove(m: map<string, seq<Finding>>, k: string)
    requires k in m
    ensures TotalSize(m) == |m[k]| + TotalSize(m - {k})
    decreases |m|
  {
    var k' :| k' in m && TotalSize(m) == |m[k']| + TotalSize(m - {k'});
    if k' != k {
      assert |m - {k'}| < |m| by { assert k' !in (m - {k'}); assert (m - {k'}).Keys < m.Keys; }
      TotalSizeRemove(m - {k'}, k);
      assert |m - {k}| < |m| by { assert k !in (m - {k}); assert (m - {k}).Keys < m.Keys; }
      TotalSizeRemove(m - {k}, k');
      assert m - {k'} - {k} == m - {k} - {k'};
    }
  }

  /** The cluster sizes add up to the number of findings. */
  lemma {:induction false} ClusterSizesSum(s: seq<Finding>)
    ensures TotalSize(Clusters(s)) == |s|
    decreases |s|
  {
    if s != [] {
      var s' := s[..|s| - 1];
      var c := Clusters(s');
      var topic := TopicOf(s[|s| - 1]);
      var c2 := Clusters(s);
      ClusterSizesSum(s');
      TotalSizeRemove(c2, topic);
      assert c2 - {topic} == c - {topic};
      if topic in c {
        TotalSizeRemove(c, topic);
      } else {
        assert c - {topic} == c;
      }
    }
  }

  // ---------------------------------------------------------------------
  // Evidence strength
  // ---------------------------------------------------------------------

  /** The `A1..=A6` range pattern: some evidence rated with letter A. */
  predicate HasStrongEvidence(f: Finding) {
    exists i :: 0 <= i < |f.evidence| && InDeclarationRange(f.evidence[i].credibilityRating, A1, A6)
  }

  /** `calculate_evidence_strength`, with integer division. */
  function CalculateEvidenceStrength(findings: seq<Finding>): EvidenceStrength {
    var strong := Count(findings, HasStrongEvidence);
    if strong >= |findings| / 2 then Strong
    else if strong >= |findings| / 4 then Moderate
    else Weak
  }

  /** The bands, with the rounding of integer division written out: Strong
      when 2s + 1 >= n, Moderate when 4s + 3 >= n > 2s + 1, and Weak
      otherwise, for s strong findings out of n. So an empty list is Strong
      and one strong finding out of three is already Strong. */
  lemma EvidenceStrengthBands(findings: seq<Finding>)
    ensures var s, n := Count(findings, HasStrongEvidence), |findings|;
      && (CalculateEvidenceStrength(findings) == Strong <==> 2 * s + 1 >= n)
      && (CalculateEvidenceStrength(findings) == Moderate <==> 2 * s + 1 < n <= 4 * s + 3)
      && (CalculateEvidenceStrength(findings) == Weak <==> 4 * s + 3 < n)
    ensures findings == [] ==> CalculateEvidenceStrength(findings) == Strong
  {
    var s, n := Count(findings, HasStrongEvidence), |findings|;
    assert s >= n / 2 <==> 2 * s + 1 >= n;
    assert s >= n / 4 <==> 4 * s + 3 >= n;
  }

  /** Strong evidence is exactly evidence with letter A. */
  lemma StrongEvidenceIsLetterA(r: CredibilityRating)
    ensures InDeclarationRange(r, A1, A6) <==> r.letter == A
  {
  }
}
