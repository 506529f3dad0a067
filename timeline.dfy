/** The timeline extrapolation rules: which risk factors and recommendations a project draws,
    the six-step milestone plan, and the prediction that combines the history table with the
    project's multipliers. */
module Timeline {
  import opened Wrappers
  import opened Numbers

  datatype Category = Development | Deployment | Audit | Testing | Integration
  datatype Complexity = Low | Medium | High | Enterprise
  datatype Experience = Junior | Mid | Senior | Mixed
  datatype PredictionMode = Conservative | Realistic | Aggressive

  datatype ProjectInput = ProjectInput(
    id: string, category: Category, complexity: Complexity, estimatedHours: real,
    /** `startDate.getTime()`, in milliseconds. */
    startDate: real,
    teamSize: int, experience: Experience,
    blockchains: seq<string>, integrations: seq<string>, customFeatures: int,
    technical: int, timeline: int, resource: int,
    dependencies: seq<string>)

  datatype HistoricalData = HistoricalData(category: string, complexity: string, avgDuration: real)

  datatype Milestone = Milestone(name: string, estimatedDate: real, confidence: real, dependencies: seq<string>)

  datatype ResourceRequirements = ResourceRequirements(developers: int, auditors: nat, testers: int)

  datatype TimelinePrediction = TimelinePrediction(
    projectId: string, predictedDuration: int, confidenceLevel: int,
    riskFactors: seq<string>, recommendations: seq<string>, costPrediction: int,
    resourceRequirements: ResourceRequirements, milestones: seq<Milestone>)

  function CategoryText(c: Category): string {
    match c
    case Development => "development"
    case Deployment => "deployment"
    case Audit => "audit"
    case Testing => "testing"
    case Integration => "integration"
  }

  function ComplexityText(c: Complexity): string {
    match c
    case Low => "low"
    case Medium => "medium"
    case High => "high"
    case Enterprise => "enterprise"
  }

  // Rule lists

  /** A message together with whether its condition holds. */
  datatype Rule = Rule(holds: bool, text: string)

  /** The messages of the rules that hold, in rule order. */
  function Kept(rules: seq<Rule>): (r: seq<string>)
    ensures |r| <= |rules|
  {
    if rules == [] then []
    else
      var rest := Kept(rules[..|rules| - 1]);
      if rules[|rules| - 1].holds then rest + [rules[|rules| - 1].text] else rest
  }

  /** A message is listed exactly when some rule with that message holds. */
  lemma {:induction false} KeptMembers(rules: seq<Rule>)
    ensures forall x :: x in Kept(rules) <==> exists i :: 0 <= i < |rules| && rules[i].holds && rules[i].text == x
  {
    if rules != [] {
      var init := rules[..|rules| - 1];
      KeptMembers(init);
      assert forall i :: 0 <= i < |init| ==> init[i] == rules[i];
    }
  }

  /** Keeping one more rule adds its message at the end when it holds. */
  lemma KeptSnoc(rules: seq<Rule>, k: nat)
    requires k < |rules|
    ensures Kept(rules[..k + 1]) == Kept(rules[..k]) + (if rules[k].holds then [rules[k].text] else [])
  {
    assert rules[..k + 1][..k] == rules[..k];
  }

  /** A rule whose message no other rule shares is listed exactly when it holds. */
  lemma KeptIff(rules: seq<Rule>, k: nat)
    requires k < |rules|
    requires forall i :: 0 <= i < |rules| && i != k ==> rules[i].text != rules[k].text
    ensures rules[k].text in Kept(rules) <==> rules[k].holds
  {
    KeptMembers(rules);
  }

  const HighTechnical := "High technical complexity"
  const MultiChain := "Multi-chain integration complexity"
  const ExtensiveCustom := "Extensive custom development"
  const JuniorTeam := "Junior team experience"
  const ManyDependencies := "Multiple external dependencies"

  function RiskRules(p: ProjectInput): seq<Rule> {
    [Rule(p.technical > 6, HighTechnical),
     Rule(|p.blockchains| > 2, MultiChain),
     Rule(p.customFeatures > 5, ExtensiveCustom),
     Rule(p.experience == Junior, JuniorTeam),
     Rule(|p.dependencies| > 2, ManyDependencies)]
  }

  /** `generateRiskFactors`: each factor is listed exactly when its condition holds, in fixed order. */
  method GenerateRiskFactors(p: ProjectInput) returns (risks: seq<string>)
    ensures risks == Kept(RiskRules(p))
    ensures |risks| <= 5
  {
    ghost var rules := RiskRules(p);
    risks := [];
    assert risks == Kept(rules[..0]);
    KeptSnoc(rules, 0);
    if p.technical > 6 { risks := risks + [HighTechnical]; }
    assert risks == Kept(rules[..1]);
    KeptSnoc(rules, 1);
    if |p.blockchains| > 2 { risks := risks + [MultiChain]; }
    assert risks == Kept(rules[..2]);
    KeptSnoc(rules, 2);
    if p.customFeatures > 5 { risks := risks + [ExtensiveCustom]; }
    assert risks == Kept(rules[..3]);
    KeptSnoc(rules, 3);
    if p.experience == Junior { risks := risks + [JuniorTeam]; }
    assert risks == Kept(rules[..4]);
    KeptSnoc(rules, 4);
    if |p.dependencies| > 2 { risks := risks + [ManyDependencies]; }
    assert rules[..5] == rules;
  }

  /** Each risk factor is listed exactly when its condition holds. */
  lemma RiskFactorsIff(p: ProjectInput)
    ensures var risks := Kept(RiskRules(p));
      (HighTechnical in risks <==> p.technical > 6)
      && (MultiChain in risks <==> |p.blockchains| > 2)
      && (ExtensiveCustom in risks <==> p.customFeatures > 5)
      && (JuniorTeam in risks <==> p.experience == Junior)
      && (ManyDependencies in risks <==> |p.dependencies| > 2)
  {
    var rules := RiskRules(p);
    assert |HighTechnical| == 25 && |MultiChain| == 34 && |ExtensiveCustom| == 28 && |JuniorTeam| == 22 && |ManyDependencies| == 30;
    KeptIff(rules, 0);
    KeptIff(rules, 1);
    KeptIff(rules, 2);
    KeptIff(rules, 3);
    KeptIff(rules, 4);
  }

  const ProofOfConcept := "Consider proof-of-concept phase"
  const SequentialChains := "Implement sequential chain integration"
  const ExpandTeam := "Consider expanding team size"
  const TimelineBuffer := "Add 20% buffer to timeline"

  function RecommendationRules(p: ProjectInput): seq<Rule> {
    [Rule(p.technical > 6, ProofOfConcept),
     Rule(|p.blockchains| > 2, SequentialChains),
     Rule(p.teamSize < 3, ExpandTeam),
     Rule(p.timeline > 5, TimelineBuffer)]
  }

  /** `generateRecommendations`: each recommendation is listed exactly when its condition holds. */
  method GenerateRecommendations(p: ProjectInput) returns (recommendations: seq<string>)
    ensures recommendations == Kept(RecommendationRules(p))
    ensures |recommendations| <= 4
  {
    ghost var rules := RecommendationRules(p);
    recommendations := [];
    assert recommendations == Kept(rules[..0]);
    KeptSnoc(rules, 0);
    if p.technical > 6 { recommendations := recommendations + [ProofOfConcept]; }
    assert recommendations == Kept(rules[..1]);
    KeptSnoc(rules, 1);
    if |p.blockchains| > 2 { recommendations := recommendations + [SequentialChains]; }
    assert recommendations == Kept(rules[..2]);
    KeptSnoc(rules, 2);
    if p.teamSize < 3 { recommendations := recommendations + [ExpandTeam]; }
    assert recommendations == Kept(rules[..3]);
    KeptSnoc(rules, 3);
    if p.timeline > 5 { recommendations := recommendations + [TimelineBuffer]; }
    assert rules[..4] == rules;
  }

  /** Each recommendation is listed exactly when its condition holds. */
  lemma RecommendationsIff(p: ProjectInput)
    ensures var recommendations := Kept(RecommendationRules(p));
      (ProofOfConcept in recommendations <==> p.technical > 6)
      && (SequentialChains in recommendations <==> |p.blockchains| > 2)
      && (ExpandTeam in recommendations <==> p.teamSize < 3)
      && (TimelineBuffer in recommendations <==> p.timeline > 5)
  {
    var rules := RecommendationRules(p);
    assert |ProofOfConcept| == 31 && |SequentialChains| == 38 && |ExpandTeam| == 28 && |TimelineBuffer| == 26;
    KeptIff(rules, 0);
    KeptIff(rules, 1);
    KeptIff(rules, 2);
    KeptIff(rules, 3);
  }

  // Milestones

  const MilestoneNames := ["Requirements Analysis", "Technical Design", "Core Development",
                           "Integration Testing", "Security Audit", "Deployment"]
  const MilestoneShares := [0.15, 0.25, 0.60, 0.80, 0.90, 1.0]

  /** Milliseconds in an hour. */
  const HourMs: real := 3600000.0

  /** The time `share` of `duration` hours after the project start, in milliseconds. */
  function DateAt(p: ProjectInput, duration: real, share: real): real {
    p.startDate + duration * share * HourMs
  }

  /** `generateMilestones`: the six phases in order, each after `duration·share` hours and each
      depending on the one before. */
  function GenerateMilestones(p: ProjectInput, duration: real): (r: seq<Milestone>)
    ensures |r| == 6
    ensures forall i :: 0 <= i < 6 ==> r[i].name == MilestoneNames[i]
    ensures forall i :: 0 <= i < 6 ==> r[i].confidence == Max(60.0, 100.0 - p.timeline as real * 5.0)
    ensures forall i :: 0 <= i < 6 ==> r[i].estimatedDate == DateAt(p, duration, MilestoneShares[i])
    ensures r[0].dependencies == [] && forall i :: 1 <= i < 6 ==> r[i].dependencies == [r[i - 1].name]
  {
    seq(6, i requires 0 <= i < 6 =>
      Milestone(MilestoneNames[i], DateAt(p, duration, MilestoneShares[i]),
                Max(60.0, 100.0 - p.timeline as real * 5.0),
                if i == 0 then [] else [MilestoneNames[i - 1]]))
  }

  /** For a non-negative duration the milestones fall in order and the last one, deployment, comes
      after exactly `duration` hours. */
  lemma MilestonesInOrder(p: ProjectInput, duration: real, i: nat, j: nat)
    requires duration >= 0.0 && i <= j < 6
    ensures GenerateMilestones(p, duration)[i].estimatedDate <= GenerateMilestones(p, duration)[j].estimatedDate
    ensures GenerateMilestones(p, duration)[5].estimatedDate == p.startDate + duration * HourMs
  {
    assert MilestoneShares[i] <= MilestoneShares[j];
    DateAtMonotone(p, duration, MilestoneShares[i], MilestoneShares[j]);
    assert MilestoneShares[5] == 1.0;
  }

  lemma DateAtMonotone(p: ProjectInput, duration: real, s1: real, s2: real)
    requires duration >= 0.0 && s1 <= s2
    ensures DateAt(p, duration, s1) <= DateAt(p, duration, s2)
  {
    assert duration * s1 <= duration * s2;
  }

  // Prediction

  /** Whether a history row is of the project's category and complexity. */
  predicate Matches(p: ProjectInput, h: HistoricalData) {
    h.category == CategoryText(p.category) && h.complexity == ComplexityText(p.complexity)
  }

  /** `historical.find(...)`: the first row of the project's category and complexity. */
  function RelevantHistory(p: ProjectInput, historical: seq<HistoricalData>): (r: Option<HistoricalData>)
    ensures r.None? <==> forall h :: h in historical ==> !Matches(p, h)
    ensures r.Some? ==> Matches(p, r.value)
  {
    if historical == [] then None
    else if Matches(p, historical[0]) then
      assert historical[0] in historical;
      Some(historical[0])
    else
      assert forall h :: h in historical ==> h == historical[0] || h in historical[1..];
      RelevantHistory(p, historical[1..])
  }

  /** The row found is the first matching one: no earlier row matches. */
  lemma {:induction false} RelevantHistoryIsFirst(p: ProjectInput, historical: seq<HistoricalData>)
    ensures var r := RelevantHistory(p, historical);
      r.Some? ==> exists k :: 0 <= k < |historical| && historical[k] == r.value && (forall j :: 0 <= j < k ==> !Matches(p, historical[j]))
  {
    if historical != [] && !Matches(p, historical[0]) {
      var tail := historical[1..];
      RelevantHistoryIsFirst(p, tail);
      var r := RelevantHistory(p, tail);
      if r.Some? {
        var k :| 0 <= k < |tail| && tail[k] == r.value && (forall j :: 0 <= j < k ==> !Matches(p, tail[j]));
        assert historical[k + 1] == r.value;
        assert forall j :: 1 <= j < k + 1 ==> historical[j] == tail[j - 1];
      }
    }
  }

  /** The hours a prediction starts from: the matching history row's average, else the estimate. */
  function StartingDuration(p: ProjectInput, historical: seq<HistoricalData>): (r: real)
    ensures (forall h :: h in historical ==> !Matches(p, h)) ==> r == p.estimatedHours
    ensures (exists h :: h in historical && Matches(p, h)) ==>
      exists k :: 0 <= k < |historical| && Matches(p, historical[k]) && r == historical[k].avgDuration
        && forall j :: 0 <= j < k ==> !Matches(p, historical[j])
  {
    var h := RelevantHistory(p, historical);
    RelevantHistoryIsFirst(p, historical);
    if h.Some? then h.value.avgDuration else p.estimatedHours
  }

  /** The mode factor: above 1 except in aggressive mode, highest when conservative. */
  function BaseMultiplier(mode: PredictionMode): (r: real)
    ensures 0.9 <= r <= 1.3
    ensures r < 1.0 <==> mode == Aggressive
    ensures r == 1.3 <==> mode == Conservative
  {
    match mode
    case Conservative => 1.3
    case Realistic => 1.1
    case Aggressive => 0.9
  }

  /** The complexity factor: 1 for low, up to 3 for enterprise. */
  function ComplexityMultiplier(c: Complexity): (r: real)
    ensures 1.0 <= r <= 3.0
    ensures r == 1.0 <==> c == Low
    ensures r == 3.0 <==> c == Enterprise
  {
    match c
    case Low => 1.0
    case Medium => 1.5
    case High => 2.2
    case Enterprise => 3.0
  }

  /** The team factor: only a senior team is faster than nominal, a junior one slowest. */
  function ExperienceMultiplier(e: Experience): (r: real)
    ensures 0.8 <= r <= 1.4
    ensures r < 1.0 <==> e == Senior
    ensures r == 1.4 <==> e == Junior
  {
    match e
    case Junior => 1.4
    case Mid => 1.1
    case Senior => 0.8
    case Mixed => 1.0
  }

  /** 20% more per chain beyond the first; with no chain at all the factor drops to 0.8. */
  function ChainMultiplier(p: ProjectInput): (r: real)
    ensures r >= 0.8
    ensures r >= 1.0 <==> |p.blockchains| >= 1
    ensures |p.blockchains| == 1 ==> r == 1.0
  {
    1.0 + (|p.blockchains| as real - 1.0) * 0.2
  }

  /** One thirtieth more per risk point; 2 exactly when the three risks add up to 30. */
  function RiskMultiplier(p: ProjectInput): (r: real)
    ensures p.technical + p.timeline + p.resource >= 0 ==> r >= 1.0
    ensures r == 2.0 <==> p.technical + p.timeline + p.resource == 30
  {
    1.0 + (p.technical + p.timeline + p.resource) as real / 30.0
  }

  /** The mode, complexity, team and chain multipliers together. */
  function ScaleMultiplier(p: ProjectInput, mode: PredictionMode): (r: real)
    ensures r > 0.0
  {
    var b, c, e := BaseMultiplier(mode), ComplexityMultiplier(p.complexity), ExperienceMultiplier(p.experience);
    PositiveProduct(b, c);
    PositiveProduct(b * c, e);
    PositiveProduct(b * c * e, ChainMultiplier(p));
    b * c * e * ChainMultiplier(p)
  }

  /** The predicted hours before rounding: the starting duration scaled by every multiplier. */
  function PredictedHours(p: ProjectInput, historical: seq<HistoricalData>, mode: PredictionMode): (r: real)
    ensures p.technical + p.timeline + p.resource >= 0 ==> (r >= 0.0 <==> StartingDuration(p, historical) >= 0.0)
  {
    var start, m := StartingDuration(p, historical), ScaleMultiplier(p, mode);
    SignOfScaled(start, m);
    if p.technical + p.timeline + p.resource >= 0 then
      SignOfScaled(start * m, RiskMultiplier(p));
      start * m * RiskMultiplier(p)
    else
      start * m * RiskMultiplier(p)
  }

  /** Every multiplier is positive for non-negative risks, so a non-negative starting duration
      gives a non-negative prediction. */
  lemma PredictedHoursScales(p: ProjectInput, historical: seq<HistoricalData>, mode: PredictionMode)
    requires p.technical >= 0 && p.timeline >= 0 && p.resource >= 0
    ensures StartingDuration(p, historical) >= 0.0 ==> PredictedHours(p, historical, mode) >= 0.0
  {
  }

  /** Without a matching history row the prediction starts from the estimate alone. */
  lemma PredictedHoursWithoutHistory(p: ProjectInput, historical: seq<HistoricalData>, mode: PredictionMode)
    requires RelevantHistory(p, historical).None?
    ensures StartingDuration(p, historical) == p.estimatedHours
    ensures PredictedHours(p, historical, mode) == PredictedHours(p, [], mode)
  {
    assert RelevantHistory(p, []) == None;
    assert StartingDuration(p, historical) == StartingDuration(p, []);
  }

  lemma SignOfScaled(a: real, m: real)
    requires m > 0.0
    ensures a * m >= 0.0 <==> a >= 0.0
  {
    if a < 0.0 {
      assert a * m == -((-a) * m);
      PositiveProduct(-a, m);
    }
  }

  lemma PositiveProduct(a: real, b: real)
    requires a > 0.0 && b > 0.0
    ensures a * b > 0.0
  {
  }

  lemma NonNegativeProduct(a: real, b: real)
    requires a >= 0.0 && b > 0.0
    ensures a * b >= 0.0
  {
  }

  /** `confidenceLevel`: 100 less five points per unit of technical and timeline risk, floored at 50. */
  function ConfidenceLevel(p: ProjectInput): (r: int)
    ensures r >= 50
    ensures p.technical + p.timeline >= 0 ==> r <= 100
    ensures r == 50 <==> p.technical + p.timeline >= 10
  {
    Round(Max(50.0, 100.0 - (p.technical + p.timeline) as real * 5.0))
  }

  /** The predicted duration in hours, scaled in place step by step as `generatePrediction` does. */
  method PredictDuration(p: ProjectInput, historical: seq<HistoricalData>, mode: PredictionMode)
    returns (predictedDuration: real)
    ensures predictedDuration == PredictedHours(p, historical, mode)
  {
    var relevantHistory := RelevantHistory(p, historical);
    predictedDuration := p.estimatedHours;
    if relevantHistory.Some? {
      predictedDuration := relevantHistory.value.avgDuration;
    }
    predictedDuration := predictedDuration * ScaleMultiplier(p, mode);
    predictedDuration := predictedDuration * RiskMultiplier(p);
  }

  /** `generatePrediction`. */
  method GeneratePrediction(p: ProjectInput, historical: seq<HistoricalData>, mode: PredictionMode)
    returns (prediction: TimelinePrediction)
    ensures prediction.projectId == p.id
    ensures prediction.predictedDuration == Round(PredictedHours(p, historical, mode))
    ensures prediction.costPrediction == Round(PredictedHours(p, historical, mode) * 150.0)
    ensures prediction.confidenceLevel == ConfidenceLevel(p)
    ensures prediction.riskFactors == Kept(RiskRules(p))
    ensures prediction.recommendations == Kept(RecommendationRules(p))
    ensures prediction.resourceRequirements ==
      ResourceRequirements(Ceil(PredictedHours(p, historical, mode) / 160.0), |p.blockchains|, Ceil(p.customFeatures as real / 3.0))
    ensures prediction.milestones == GenerateMilestones(p, PredictedHours(p, historical, mode))
  {
    var predictedDuration := PredictDuration(p, historical, mode);
    var confidenceLevel := Max(50.0, 100.0 - (p.technical + p.timeline) as real * 5.0);
    var costPrediction := predictedDuration * 150.0;
    var riskFactors := GenerateRiskFactors(p);
    var recommendations := GenerateRecommendations(p);
    prediction := TimelinePrediction(
      p.id, Round(predictedDuration), Round(confidenceLevel), riskFactors, recommendations, Round(costPrediction),
      ResourceRequirements(Ceil(predictedDuration / 160.0), |p.blockchains|, Ceil(p.customFeatures as real / 3.0)),
      GenerateMilestones(p, predictedDuration));
  }

  /** Testers cover the custom features three at a time, with no tester to spare. */
  lemma TestersCoverFeatures(p: ProjectInput)
    requires p.customFeatures >= 0
    ensures var t := Ceil(p.customFeatures as real / 3.0);
      3 * t >= p.customFeatures && 3 * (t - 1) < p.customFeatures
  {
  }
}
