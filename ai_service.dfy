/**
 * The analysis service (backend/services/ai_service.py): the step graph built from a workflow's
 * raw data, the fixed analysis every run returns, and the executive report computed from a
 * list of flaws and fix suggestions.
 */
module AiService {
  import opened Wrappers
  import opened Json
  import opened Severity
  import opened Priority
  import Schemas

  // ----- step graph -----

  datatype Graph = Graph(nodes: set<int>, edges: set<(int, int)>)

  const EmptyGraph := Graph({}, {})

  /** The nodes 0 .. n-1. */
  function Positions(n: nat): (r: set<int>)
    ensures forall i :: i in r <==> 0 <= i < n
  {
    if n == 0 then {} else Positions(n - 1) + {n - 1}
  }

  /** The edge into step `i` from the step before it. */
  function Link(i: int): (int, int) {
    (i - 1, i)
  }

  /** The edges (0, 1), (1, 2), .. (n-2, n-1). */
  function Links(n: nat): (r: set<(int, int)>)
    ensures forall e :: e in r <==> 1 <= e.1 < n && e.0 == e.1 - 1
  {
    if n <= 1 then {} else Links(n - 1) + {Link(n - 1)}
  }

  /** The path 0 -> 1 -> ... -> n-1. */
  function Chain(n: nat): Graph {
    Graph(Positions(n), Links(n))
  }

  /**
   * A step dict that `G.add_node(i, **step)` accepts as node attributes: networkx's `add_node`
   * has the parameters `self` and `node_for_adding`, so a key of either name is passed twice
   * and raises a TypeError.
   */
  predicate NodeAttributes(step: Json) {
    step.JObject? && "self" !in step.fields && "node_for_adding" !in step.fields
  }

  /**
   * Whether `_build_workflow_graph` gets through: without a "steps" key nothing is iterated;
   * otherwise the steps value must be iterable and every item a mapping whose keys `add_node`
   * accepts (a non-empty string or dict yields strings, which `**step` rejects; numbers,
   * booleans and null are not iterable).
   */
  predicate GraphBuildable(data: Json) {
    !HasKey(data, "steps") ||
    match data.fields["steps"]
      case JList(items) => forall i :: 0 <= i < |items| ==> NodeAttributes(items[i])
      case JStr(s) => s == []
      case JObject(f) => f == map[]
      case _ => false
  }

  /** The number of steps iterated when the graph can be built. */
  function StepCount(data: Json): nat {
    if HasKey(data, "steps") && data.fields["steps"].JList? then |data.fields["steps"].items| else 0
  }

  /**
   * `_build_workflow_graph`: one node per step, numbered by position, and an edge from every
   * step to the next; an empty graph when the data has no steps; a type error when a step is
   * not a mapping.
   */
  method BuildWorkflowGraph(data: Json) returns (r: Result<Graph, string>)
    ensures r.Ok? <==> GraphBuildable(data)
    ensures r.Ok? ==> r.value == Chain(StepCount(data))
  {
    if !HasKey(data, "steps") {
      return Ok(EmptyGraph);
    }
    match data.fields["steps"]
    case JList(items) =>
      var nodes: set<int> := {};
      var edges: set<(int, int)> := {};
      for i := 0 to |items|
        invariant nodes == Positions(i)
        invariant edges == Links(i)
        invariant forall k :: 0 <= k < i ==> NodeAttributes(items[k])
      {
        if !items[i].JObject? {
          return Err("TypeError: step is not a mapping");
        }
        if "self" in items[i].fields || "node_for_adding" in items[i].fields {
          return Err("TypeError: add_node got multiple values for an argument");
        }
        nodes := nodes + {i};
        if i > 0 {
          edges := edges + {Link(i)};
        }
      }
      return Ok(Graph(nodes, edges));
    case JStr(s) =>
      if s == [] {
        return Ok(EmptyGraph);
      }
      return Err("TypeError: step is not a mapping");
    case JObject(f) =>
      if f == map[] {
        return Ok(EmptyGraph);
      }
      return Err("TypeError: step is not a mapping");
    case _ =>
      return Err("TypeError: steps are not iterable");
  }

  /** The graph is a simple path: nodes are the step positions, and each step links only to the next one. */
  lemma ChainIsPath(n: nat)
    ensures forall i :: i in Chain(n).nodes <==> 0 <= i < n
    ensures forall e :: e in Chain(n).edges ==> e.0 in Chain(n).nodes && e.1 == e.0 + 1 && e.1 in Chain(n).nodes
    ensures forall i :: 0 < i < n ==> Link(i) in Chain(n).edges
  {
  }

  // ----- the analysis -----

  /** A flaw as the analysis describes it; `None` is a key the dict does not have. */
  datatype FlawData = FlawData(
    flawType: string, severity: Option<string>, title: string, description: string,
    location: Option<string>, impactScore: Option<real>)

  /** A fix suggestion as the analysis describes it; `None` is a key the dict does not have. */
  datatype SuggestionData = SuggestionData(
    title: string, description: string, effort: string, impact: string,
    priority: Option<int>, estimatedTime: Option<string>)

  datatype Analysis = Analysis(
    flaws: seq<FlawData>, suggestions: seq<SuggestionData>, brutalityScore: real,
    totalFlaws: nat, processingTime: real)

  const MockFlaws: seq<FlawData> := [
    FlawData("bottleneck", Some(High), "Manual Approval Bottleneck",
             "Manual approval process causes significant delays in workflow execution",
             Some("Step 3: Approval Process"), Some(8.5)),
    FlawData("redundancy", Some(Medium), "Duplicate Data Entry",
             "Customer information is entered multiple times across different steps",
             Some("Steps 1, 4, 7"), Some(6.0)),
    FlawData("security", Some(Critical), "Unencrypted Data Transfer",
             "Sensitive customer data is transmitted without encryption",
             Some("Step 5: Data Transfer"), Some(9.8)),
    FlawData("inefficiency", Some(Low), "Unnecessary Email Notifications",
             "Too many email notifications slow down the process",
             Some("Multiple steps"), Some(3.2))
  ]

  const MockSuggestions: seq<SuggestionData> := [
    SuggestionData("Implement Automated Approval System",
                   "Replace manual approval with rule-based automated system for standard cases",
                   "high", "high", Some(1), Some("2-3 weeks")),
    SuggestionData("Centralize Data Entry",
                   "Create a single data entry point that populates all required fields",
                   "medium", "medium", Some(2), Some("1-2 weeks")),
    SuggestionData("Implement End-to-End Encryption",
                   "Add SSL/TLS encryption for all data transmission",
                   "medium", "high", Some(1), Some("1 week")),
    SuggestionData("Optimize Notification System",
                   "Reduce email notifications to essential ones only",
                   "low", "low", Some(3), Some("2-3 days"))
  ]

  /**
   * The severities the analysis reads with `flaw["severity"]`. A missing key would raise a
   * KeyError there; only the fixed flaws reach this, and all of them have a severity, so the
   * placeholder "" never occurs.
   */
  function DeclaredSeverities(flaws: seq<FlawData>): (r: seq<string>)
    ensures |r| == |flaws|
    ensures forall i :: 0 <= i < |flaws| ==> r[i] == flaws[i].severity.GetOr("")
  {
    seq(|flaws|, i requires 0 <= i < |flaws| => flaws[i].severity.GetOr(""))
  }

  /** `_mock_analysis`'s score: the mean severity weight, capped at 10. */
  function MockBrutality(): real {
    var avg := MeanWeight(DeclaredSeverities(MockFlaws));
    if avg < 10.0 then avg else 10.0
  }

  /** The fixed analysis scores (7 + 5 + 10 + 2) / 4 = 6. */
  lemma MockBrutalityIsSix()
    ensures MockBrutality() == 6.0
  {
    var sevs := DeclaredSeverities(MockFlaws);
    assert sevs == [High, Medium, Critical, Low];
    assert WeightSum([High]) == 7 by { assert [High][..0] == []; }
    assert WeightSum([High, Medium]) == 12 by { assert [High, Medium][..1] == [High]; }
    assert WeightSum([High, Medium, Critical]) == 22 by { assert [High, Medium, Critical][..2] == [High, Medium]; }
    assert WeightSum(sevs) == 24 by { assert sevs[..3] == [High, Medium, Critical]; }
  }

  /**
   * `analyze_workflow`: fails exactly when the step graph cannot be built; otherwise returns the
   * fixed analysis, whose score is the mean weight of its flaws' severities and whose flaw total
   * is the number of flaws. Every path, with or without a language model configured, ends in
   * the fixed analysis; the elapsed time is supplied by the caller.
   */
  method AnalyzeWorkflow(data: Json, processingTime: real) returns (r: Result<Analysis, string>)
    ensures r.Ok? <==> GraphBuildable(data)
    ensures r.Ok? ==> r.value.flaws == MockFlaws && r.value.suggestions == MockSuggestions
    ensures r.Ok? ==> r.value.totalFlaws == |r.value.flaws|
    ensures r.Ok? ==> r.value.brutalityScore == MeanWeight(DeclaredSeverities(r.value.flaws))
    ensures r.Ok? ==> r.value.processingTime == processingTime
  {
    var graph := BuildWorkflowGraph(data);
    if graph.Err? {
      return Err(graph.error);
    }
    MockBrutalityIsSix();
    r := Ok(Analysis(MockFlaws, MockSuggestions, MockBrutality(), |MockFlaws|, processingTime));
  }

  // ----- the executive report -----

  /** The sentences of the executive summary, in the order they are appended. */
  datatype Sentence =
    | Congratulations
    | Headline(totalFlaws: nat, brutalityScore: real)
    | Urgent(critical: nat)
    | HighPriority(high: nat)
    | NeedsSignificantWork
    | RoomForImprovement
    | WellDesigned

  /** The closing sentence chosen by the score band: 8 and above, 5 and above, below 5. */
  function Closing(brutalityScore: real): (s: Sentence)
    ensures s == NeedsSignificantWork <==> brutalityScore >= 8.0
    ensures s == RoomForImprovement <==> 5.0 <= brutalityScore < 8.0
    ensures s == WellDesigned <==> brutalityScore < 5.0
  {
    if brutalityScore >= 8.0 then NeedsSignificantWork
    else if brutalityScore >= 5.0 then RoomForImprovement
    else WellDesigned
  }

  /** `_generate_executive_summary`. */
  function ExecutiveSummary(totalFlaws: nat, counts: Counts, brutalityScore: real): (r: seq<Sentence>)
    ensures totalFlaws == 0 <==> r == [Congratulations]
    ensures totalFlaws > 0 ==> 2 <= |r| <= 4 && r[0] == Headline(totalFlaws, brutalityScore)
                               && r[|r| - 1] == Closing(brutalityScore)
    ensures totalFlaws > 0 ==> (Urgent(counts.critical) in r <==> counts.critical > 0)
    ensures totalFlaws > 0 ==> (HighPriority(counts.high) in r <==> counts.high > 0)
    ensures totalFlaws > 0 ==> |r| == 2 + (if counts.critical > 0 then 1 else 0) + (if counts.high > 0 then 1 else 0)
    ensures totalFlaws > 0 && counts.critical > 0 ==> r[1] == Urgent(counts.critical)
    ensures totalFlaws > 0 && counts.high > 0 ==> r[|r| - 2] == HighPriority(counts.high)
  {
    if totalFlaws == 0 then [Congratulations]
    else
      [Headline(totalFlaws, brutalityScore)]
      + (if counts.critical > 0 then [Urgent(counts.critical)] else [])
      + (if counts.high > 0 then [HighPriority(counts.high)] else [])
      + [Closing(brutalityScore)]
  }

  const EstimatedTotalTime := "4-8 weeks"
  const ExpectedRoi := "25-40% efficiency improvement"

  datatype Recommendations = Recommendations(
    immediate: seq<SuggestionData>, shortTerm: seq<SuggestionData>, longTerm: seq<SuggestionData>,
    estimatedTotalTime: string, expectedRoi: string)

  /** `s.get("priority", 5)`. */
  function PriorityOrDefault(s: SuggestionData): int {
    s.priority.GetOr(5)
  }

  /** `_generate_recommendations`: the suggestions split by priority bucket, each bucket in input order. */
  function GenerateRecommendations(suggestions: seq<SuggestionData>): (r: Recommendations)
    ensures forall s :: s in r.immediate ==> s in suggestions && PriorityOrDefault(s) <= 2
    ensures forall s :: s in r.shortTerm ==> s in suggestions && PriorityOrDefault(s) == 3
    ensures forall s :: s in r.longTerm ==> s in suggestions && PriorityOrDefault(s) >= 4
    ensures r.estimatedTotalTime == EstimatedTotalTime && r.expectedRoi == ExpectedRoi
  {
    Recommendations(
      InBucket(suggestions, PriorityOrDefault, Immediate),
      InBucket(suggestions, PriorityOrDefault, ShortTerm),
      InBucket(suggestions, PriorityOrDefault, LongTerm),
      EstimatedTotalTime, ExpectedRoi)
  }

  /** Every suggestion is recommended exactly once: the three lists are a permutation of the input. */
  lemma RecommendationsPartition(suggestions: seq<SuggestionData>)
    ensures var r := GenerateRecommendations(suggestions);
            multiset(r.immediate) + multiset(r.shortTerm) + multiset(r.longTerm) == multiset(suggestions)
  {
    BucketsPartition(suggestions, PriorityOrDefault);
  }

  /**
   * The buckets grow by appending: one more suggestion is added at the end of its own bucket
   * and of no other, so each bucket lists its suggestions in input order.
   */
  lemma RecommendationsKeepOrder(suggestions: seq<SuggestionData>, x: SuggestionData)
    ensures var r, r' := GenerateRecommendations(suggestions), GenerateRecommendations(suggestions + [x]);
            r'.immediate == r.immediate + (if PriorityOrDefault(x) <= 2 then [x] else [])
            && r'.shortTerm == r.shortTerm + (if PriorityOrDefault(x) == 3 then [x] else [])
            && r'.longTerm == r.longTerm + (if PriorityOrDefault(x) >= 4 then [x] else [])
  {
    InBucketAppend(suggestions, x, PriorityOrDefault, Immediate);
    InBucketAppend(suggestions, x, PriorityOrDefault, ShortTerm);
    InBucketAppend(suggestions, x, PriorityOrDefault, LongTerm);
  }

  datatype Report = Report(
    workflowId: int, executiveSummary: seq<Sentence>, totalFlaws: nat,
    criticalFlaws: nat, highFlaws: nat, mediumFlaws: nat, lowFlaws: nat,
    brutalityScore: real, improvementPercentage: real, recommendations: Recommendations)

  /** The severities `generate_report` counts: a flaw without one counts as low. */
  function ReportSeverities(flaws: seq<FlawData>): (r: seq<string>)
    ensures |r| == |flaws|
    ensures forall i :: 0 <= i < |flaws| ==> r[i] == flaws[i].severity.GetOr(Low)
  {
    seq(|flaws|, i requires 0 <= i < |flaws| => flaws[i].severity.GetOr(Low))
  }

  /** `total_score / total_flaws`, or 0 without flaws. */
  function Brutality(total: nat, counts: Counts): real {
    if total > 0 then counts.WeightedSum() as real / total as real else 0.0
  }

  /** `min(100 - brutality_score * 10, 100)`. */
  function Improvement(brutalityScore: real): real {
    if 100.0 - brutalityScore * 10.0 < 100.0 then 100.0 - brutalityScore * 10.0 else 100.0
  }

  /** The report assembled from the flaw total and the severity counts. */
  function BuildReport(workflowId: int, total: nat, counts: Counts, suggestions: seq<SuggestionData>): Report {
    var brutality := Brutality(total, counts);
    var improvement := Improvement(brutality);
    Report(workflowId, ExecutiveSummary(total, counts, brutality), total,
           counts.critical, counts.high, counts.medium, counts.low,
           brutality, improvement, GenerateRecommendations(suggestions))
  }

  /** The counts of `report` are the occurrences of each severity among `sevs`. */
  ghost predicate CountsMatch(report: Report, sevs: seq<string>) {
    report.criticalFlaws == Occurrences(sevs, Critical) && report.highFlaws == Occurrences(sevs, High)
    && report.mediumFlaws == Occurrences(sevs, Medium) && report.lowFlaws == Occurrences(sevs, Low)
    && report.criticalFlaws + report.highFlaws + report.mediumFlaws + report.lowFlaws <= |sevs|
  }

  /** The scores of `report` are the mean weight of `sevs` and the improvement it leaves, both in range. */
  ghost predicate ScoresMatch(report: Report, sevs: seq<string>) {
    report.brutalityScore == MeanWeight(sevs)
    && report.improvementPercentage == 100.0 - 10.0 * report.brutalityScore
    && Schemas.ValidReportCreate(report.brutalityScore, report.improvementPercentage)
  }

  lemma BuildReportCounts(workflowId: int, flaws: seq<FlawData>, suggestions: seq<SuggestionData>)
    ensures CountsMatch(BuildReport(workflowId, |flaws|, Tally(ReportSeverities(flaws)), suggestions),
                        ReportSeverities(flaws))
  {
    TallyCountsOccurrences(ReportSeverities(flaws));
    TallyTotal(ReportSeverities(flaws));
  }

  lemma BuildReportScores(workflowId: int, flaws: seq<FlawData>, suggestions: seq<SuggestionData>)
    ensures ScoresMatch(BuildReport(workflowId, |flaws|, Tally(ReportSeverities(flaws)), suggestions),
                        ReportSeverities(flaws))
  {
    var sevs := ReportSeverities(flaws);
    TallyWeightedSum(sevs);
    var b := Brutality(|flaws|, Tally(sevs));
    assert b == MeanWeight(sevs);
    assert Improvement(b) == 100.0 - 10.0 * b;
  }

  /**
   * `generate_report`: the four counts are the occurrences of each severity (missing ones
   * counting as low, unknown ones not at all); the brutality score is the mean severity weight,
   * so it lies between 0 and 10; the improvement percentage is 100 minus ten times the score,
   * so it lies between 0 and 100; and the report meets the `ReportCreate` constraints.
   */
  method GenerateReport(workflowId: int, flaws: seq<FlawData>, suggestions: seq<SuggestionData>)
    returns (report: Report)
    ensures CountsMatch(report, ReportSeverities(flaws))
    ensures ScoresMatch(report, ReportSeverities(flaws))
    ensures report.workflowId == workflowId && report.totalFlaws == |flaws|
    ensures report.executiveSummary == ExecutiveSummary(
              |flaws|, Counts(report.criticalFlaws, report.highFlaws, report.mediumFlaws, report.lowFlaws),
              report.brutalityScore)
    ensures report.recommendations == GenerateRecommendations(suggestions)
  {
    var counts := TallySeverities(ReportSeverities(flaws));
    report := BuildReport(workflowId, |flaws|, counts, suggestions);
    BuildReportCounts(workflowId, flaws, suggestions);
    BuildReportScores(workflowId, flaws, suggestions);
  }
}
