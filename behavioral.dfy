/** The behavioural component types shared by every agent: intents, contexts,
    actions, evidence, and the Admiralty-code credibility rating with its
    numeric ordering (behavioral/mod.rs). */
module Behavioral {
  import opened Common

  // ---------------------------------------------------------------------
  // Credibility rating
  // ---------------------------------------------------------------------

  /** Source reliability, from A (completely reliable) to F (cannot judge). */
  datatype Letter = A | B | C | D | E | F

  /** Position of the letter in declaration order: A is 0, F is 5. */
  function LetterIndex(l: Letter): (k: nat)
    ensures k <= 5
  {
    match l
    case A => 0
    case B => 1
    case C => 2
    case D => 3
    case E => 4
    case F => 5
  }

  /** The information-credibility digit, 1 to 6. */
  type Digit = d: int | 1 <= d <= 6 witness 1

  /** One of the 36 variants A1, ..., F6 of the CredibilityRating enum, as the
      pair of its letter and its digit. */
  datatype CredibilityRating = Rating(letter: Letter, digit: Digit)

  const A1 := Rating(A, 1)
  const A2 := Rating(A, 2)
  const A3 := Rating(A, 3)
  const A6 := Rating(A, 6)
  const B1 := Rating(B, 1)
  const B2 := Rating(B, 2)
  const B3 := Rating(B, 3)
  const B6 := Rating(B, 6)
  const C1 := Rating(C, 1)

  /** Position of the variant in the enum's declaration order
      A1, ..., A6, B1, ..., B6, ..., F6. */
  function DeclarationIndex(r: CredibilityRating): nat {
    LetterIndex(r.letter) * 6 + r.digit - 1
  }

  /** The range pattern `lo..=hi` over ratings, read in declaration order. */
  predicate InDeclarationRange(r: CredibilityRating, lo: CredibilityRating, hi: CredibilityRating) {
    DeclarationIndex(lo) <= DeclarationIndex(r) <= DeclarationIndex(hi)
  }

  /** `numeric_value`: the letter A..F gives the tens digit 6..1 and the digit
      gives the units, so A1 is 61 and F6 is 16. */
  function NumericValue(r: CredibilityRating): (v: nat)
    ensures 11 <= v <= 66
    ensures v / 10 == 6 - LetterIndex(r.letter) && v % 10 == r.digit
  {
    var tens := match r.letter
      case A => 60
      case B => 50
      case C => 40
      case D => 30
      case E => 20
      case F => 10;
    tens + r.digit
  }

  /** `meets_threshold`: the rating is at least the minimum's numeric value. */
  predicate MeetsThreshold(r: CredibilityRating, minimum: CredibilityRating) {
    NumericValue(r) >= NumericValue(minimum)
  }

  function LetterOfTens(t: int): Letter
    requires 1 <= t <= 6
  {
    if t == 6 then A else if t == 5 then B else if t == 4 then C
    else if t == 3 then D else if t == 2 then E else F
  }

  /** The rating whose numeric value is `v`, if there is one. */
  function FromNumericValue(v: int): (r: Option<CredibilityRating>)
    ensures r.Some? ==> NumericValue(r.value) == v
  {
    if 11 <= v <= 66 && 1 <= v % 10 <= 6 then Some(Rating(LetterOfTens(v / 10), v % 10))
    else None
  }

  /** Every rating is recovered from its numeric value. */
  lemma FromNumericValueRoundTrip(r: CredibilityRating)
    ensures FromNumericValue(NumericValue(r)) == Some(r)
  {
    var v := NumericValue(r);
    assert v / 10 == 6 - LetterIndex(r.letter);
    assert LetterOfTens(v / 10) == r.letter;
  }

  /** Distinct ratings have distinct numeric values. */
  lemma NumericValueInjective(r: CredibilityRating, s: CredibilityRating)
    requires NumericValue(r) == NumericValue(s)
    ensures r == s
  {
    FromNumericValueRoundTrip(r);
    FromNumericValueRoundTrip(s);
  }

  /** The threshold order is lexicographic: an earlier letter always wins,
      and within one letter a higher digit ranks higher. */
  lemma MeetsThresholdLexicographic(r: CredibilityRating, m: CredibilityRating)
    ensures MeetsThreshold(r, m) <==>
      LetterIndex(r.letter) < LetterIndex(m.letter) ||
      (r.letter == m.letter && r.digit >= m.digit)
  {
    var vr, vm := NumericValue(r), NumericValue(m);
    assert vr == (6 - LetterIndex(r.letter)) * 10 + r.digit;
    assert vm == (6 - LetterIndex(m.letter)) * 10 + m.digit;
    if r.letter != m.letter && LetterIndex(r.letter) == LetterIndex(m.letter) {
      assert false;
    }
  }

  /** `meets_threshold` is a total order on ratings. */
  lemma MeetsThresholdTotalOrder(r: CredibilityRating, s: CredibilityRating, t: CredibilityRating)
    ensures MeetsThreshold(r, r)
    ensures MeetsThreshold(r, s) || MeetsThreshold(s, r)
    ensures MeetsThreshold(r, s) && MeetsThreshold(s, t) ==> MeetsThreshold(r, t)
    ensures MeetsThreshold(r, s) && MeetsThreshold(s, r) ==> r == s
  {
    if MeetsThreshold(r, s) && MeetsThreshold(s, r) {
      NumericValueInjective(r, s);
    }
  }

  /** Letters dominate digits: every A or B rating meets C1 and no C to F
      rating meets B1; within A, A6 meets A1 but A1 does not meet A6. */
  lemma {:induction false} LetterDominatesDigit(r: CredibilityRating)
    ensures r.letter in {A, B} ==> MeetsThreshold(r, C1)
    ensures r.letter !in {A, B} ==> !MeetsThreshold(r, B1)
    ensures MeetsThreshold(A6, A1) && !MeetsThreshold(A1, A6)
  {
    MeetsThresholdLexicographic(r, C1);
    MeetsThresholdLexicographic(r, B1);
  }

  /** The range pattern `A1..=B3` and `meets_threshold(B3)` select different
      ratings: B1 is in the range but falls short of B3, while B6 meets B3 but
      lies outside the range. Every A rating is selected by both. */
  lemma RangeAndThresholdDiffer(r: CredibilityRating)
    ensures InDeclarationRange(B1, A1, B3) && !MeetsThreshold(B1, B3)
    ensures !InDeclarationRange(B6, A1, B3) && MeetsThreshold(B6, B3)
    ensures r.letter == A ==> InDeclarationRange(r, A1, B3) && MeetsThreshold(r, B3)
  {
  }

  // ---------------------------------------------------------------------
  // Behavioural data types
  // ---------------------------------------------------------------------

  datatype Priority = Critical | High | Medium | Low

  datatype ActionStatus = InProgress | Completed | Failed | RequiresInput | Blocked

  datatype SourceType =
    PeerReviewed | OfficialDocumentation | ExpertOpinion | CommunitySource | CommercialContent | Unknown

  datatype ValidationType =
    | SourceCredibility | ContentAccuracy | BiasAssessment | CrossValidation
    | MethodologicalSoundness | EvidenceQuality | ConsistencyCheck | TemporalRelevance

  datatype ValidationStatus = Passed | Failed | Warning | RequiresHumanReview

  datatype ValidationCheck = ValidationCheck(
    checkType: ValidationType, status: ValidationStatus, details: string, automated: bool)

  datatype Evidence = Evidence(
    sourceId: string,
    sourceType: SourceType,
    credibilityRating: CredibilityRating,
    content: string,
    validationChecks: seq<ValidationCheck>,
    timestamp: Timestamp)

  /** A user intent; `parameters` is a HashMap of JSON values. */
  datatype Intent = Intent(
    actionType: string, parameters: map<string, Value>, priority: Priority, context: string)

  datatype AgentContext = AgentContext(
    sessionId: Uuid,
    userIntent: Intent,
    availableResources: map<string, Value>,
    constraints: seq<string>,
    timestamp: Timestamp)

  datatype AgentAction = AgentAction(
    actionId: Uuid,
    actionType: string,
    status: ActionStatus,
    results: Value,
    evidence: seq<Evidence>,
    nextActions: seq<string>)

  datatype AgentStatus = Idle | Processing | WaitingForInput | Error

  /** What `AgentBehavior::get_state` reports; the floating-point performance
      metrics are not modelled. */
  datatype AgentState = AgentState(
    agentId: Uuid, status: AgentStatus, capabilities: seq<string>, currentTask: Option<string>)

  datatype AgentError =
    | ValidationError(message: string)
    | StorageError(message: string)
    | NetworkError(message: string)
    | InsufficientEvidence(required: CredibilityRating, found: CredibilityRating)
    | CapabilityMismatch(message: string)
    | Internal(message: string)
}
