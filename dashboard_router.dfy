/**
 * The dashboard endpoints (backend/routers/dashboard.py): a user's statistics and the data of
 * the five dashboard charts. Calendar dates are modelled by their day number: the ISO strings
 * the source sorts order the same way.
 */
module DashboardRouter {
  import opened Wrappers
  import opened Http
  import opened Store
  import opened Responses
  import opened Severity
  import opened StableSort
  import opened Histogram

  const NoPermissionDashboard := HttpError(Forbidden, "You don't have permission to view this dashboard")
  const StatsMessage := "Dashboard statistics retrieved successfully"
  const ChartsMessage := "Dashboard chart data retrieved successfully"
  const RecentCount := 5

  const FlawTypeColors := ["#FF6384", "#36A2EB", "#FFCE56", "#4BC0C0", "#9966FF", "#FF9F40", "#FF6384", "#C9CBCF"]
  const StatusColors := ["#36A2EB", "#FFCE56", "#4BC0C0", "#FF6384", "#9966FF", "#FF9F40"]
  const SeverityLabels := ["Critical", "High", "Medium", "Low"]
  const SeverityColors := ["#FF4444", "#FF8800", "#FFCC00", "#44FF44"]
  const FlawsOverTimeColor := "#36A2EB"
  const BrutalityTrendColor := "#FF6384"

  /** A dictionary filled by counting: its keys in insertion order and the counts. */
  datatype Tallied<K> = Tallied(keys: seq<K>, counts: map<K, nat>)

  datatype DashboardStats = DashboardStats(
    totalWorkflows: nat, totalFlaws: nat, avgBrutalityScore: real, recentWorkflows: seq<WorkflowRec>,
    flawDistribution: Tallied<string>, severityDistribution: Counts)

  datatype Chart = Chart(labels: seq<string>, data: seq<nat>, colors: seq<string>)

  datatype LineChart<V> = LineChart(labels: seq<int>, data: seq<V>, color: string)

  datatype DashboardCharts = DashboardCharts(
    flawTypesPie: Chart, severityDistribution: Chart, workflowStatusPie: Chart,
    flawsOverTime: LineChart<nat>, brutalityScoreTrend: LineChart<real>)

  /** The flaws of the given workflows; no query at all when there are none. */
  function UserFlaws(t: Tables, workflows: seq<WorkflowRec>): (r: seq<FlawRec>)
    ensures forall f :: f in r <==> f in t.flaws && exists w :: w in workflows && w.id == f.workflowId
  {
    if workflows == [] then [] else FlawsOfAny(t.flaws, Ids(workflows))
  }

  function FlawTypes(flaws: seq<FlawRec>): (r: seq<string>)
    ensures |r| == |flaws| && forall i :: 0 <= i < |flaws| ==> r[i] == flaws[i].flawType
  {
    seq(|flaws|, i requires 0 <= i < |flaws| => flaws[i].flawType)
  }

  function Statuses(workflows: seq<WorkflowRec>): (r: seq<string>)
    ensures |r| == |workflows| && forall i :: 0 <= i < |workflows| ==> r[i] == workflows[i].status
  {
    seq(|workflows|, i requires 0 <= i < |workflows| => workflows[i].status)
  }

  function Days(flaws: seq<FlawRec>): (r: seq<int>)
    ensures |r| == |flaws| && forall i :: 0 <= i < |flaws| ==> r[i] == flaws[i].createdAt.day
  {
    seq(|flaws|, i requires 0 <= i < |flaws| => flaws[i].createdAt.day)
  }

  function Min(a: nat, b: nat): nat {
    if a < b then a else b
  }

  // ---------------------------------------------------------------- recent workflows

  /** `sorted(key=created_at, reverse=True)` is the stable ascending sort on the negated timestamp. */
  function NewestFirst(w: WorkflowRec): Key {
    Key(-w.createdAt.day, -w.createdAt.time)
  }

  predicate NotOlder(a: WorkflowRec, b: WorkflowRec) {
    a.createdAt.day > b.createdAt.day || (a.createdAt.day == b.createdAt.day && a.createdAt.time >= b.createdAt.time)
  }

  function Recent(workflows: seq<WorkflowRec>): seq<WorkflowRec> {
    SortBy(workflows, NewestFirst)[..Min(|workflows|, RecentCount)]
  }

  /**
   * At most five workflows, newest first, taken from the user's workflows, and none of the
   * workflows left out is newer than one that is shown.
   */
  lemma RecentMeaning(workflows: seq<WorkflowRec>)
    ensures |Recent(workflows)| == Min(|workflows|, RecentCount)
    ensures forall w :: w in Recent(workflows) ==> w in workflows
    ensures forall i, j :: 0 <= i < j < |Recent(workflows)| ==> NotOlder(Recent(workflows)[i], Recent(workflows)[j])
    ensures forall v, w :: v in Recent(workflows) && w in workflows && w !in Recent(workflows) ==> NotOlder(v, w)
  {
    var sorted := SortBy(workflows, NewestFirst);
    var r := Recent(workflows);
    SortBySorted(workflows, NewestFirst);
    forall w | w in r
      ensures w in workflows
    {
      assert w in multiset(sorted);
    }
    forall v, w | v in r && w in workflows && w !in r
      ensures NotOlder(v, w)
    {
      assert w in multiset(sorted);
      var k :| 0 <= k < |sorted| && sorted[k] == w;
      var i :| 0 <= i < |r| && r[i] == v;
      assert sorted[i] == v;
      assert r == sorted[..|r|];
      assert k >= |r|;
      assert KeyLe(NewestFirst(sorted[i]), NewestFirst(sorted[k]));
    }
  }

  // ---------------------------------------------------------------- statistics

  /** The statistics the dashboard reports for a user. */
  ghost predicate StatsOf(d: DashboardStats, t: Tables, userId: int) {
    var workflows := WorkflowsOf(t.workflows, userId);
    var flaws := UserFlaws(t, workflows);
    d.totalWorkflows == |workflows|
    && d.totalFlaws == |flaws|
    && d.avgBrutalityScore == MeanWeight(Severities(flaws))
    && d.recentWorkflows == Recent(workflows)
    && d.flawDistribution == Tallied(Distinct(FlawTypes(flaws)), CountMap(FlawTypes(flaws)))
    && d.severityDistribution == Tally(Severities(flaws))
  }

  method GetDashboardStats(t: Tables, userId: int, currentUserId: int)
    returns (r: Result<Response<DashboardStats, string>, HttpError>)
    ensures userId != currentUserId ==> r == Err(NoPermissionDashboard)
    ensures userId == currentUserId ==>
              r.Ok? && WellFormed(r.value) && r.value.success && r.value.message == StatsMessage
              && r.value.data.Some? && StatsOf(r.value.data.value, t, userId)
  {
    if userId != currentUserId {
      return Err(NoPermissionDashboard);
    }
    var workflows := WorkflowsOf(t.workflows, userId);
    var flaws := UserFlaws(t, workflows);
    var avg := MeanWeight(Severities(flaws));
    var types, distribution := CountByKey(FlawTypes(flaws));
    var severities := TallySeverities(Severities(flaws));
    var stats := DashboardStats(|workflows|, |flaws|, avg, Recent(workflows),
                                Tallied(types, distribution), severities);
    return Ok(SuccessResponse(StatsMessage, Some(stats)));
  }

  /** `GET /dashboard/`: the statistics of the signed-in user, who may always see them. */
  method GetCurrentUserDashboard(t: Tables, currentUserId: int)
    returns (r: Result<Response<DashboardStats, string>, HttpError>)
    ensures r.Ok? && r.value.success && r.value.data.Some? && StatsOf(r.value.data.value, t, currentUserId)
  {
    r := GetDashboardStats(t, currentUserId, currentUserId);
  }

  /**
   * The statistics agree with each other: the type distribution accounts for every flaw, the
   * severity distribution for every flaw of a known severity, and the average is the weighted
   * sum of the severity distribution over the number of flaws.
   */
  lemma StatsConsistent(d: DashboardStats, t: Tables, userId: int)
    requires StatsOf(d, t, userId)
    ensures forall k :: k in d.flawDistribution.keys ==> k in d.flawDistribution.counts
    ensures SumCounts(d.flawDistribution.keys, d.flawDistribution.counts) == d.totalFlaws
    ensures d.severityDistribution.Total() <= d.totalFlaws
    ensures 0.0 <= d.avgBrutalityScore <= 10.0
    ensures d.totalFlaws == 0 ==> d.avgBrutalityScore == 0.0
    ensures d.totalFlaws > 0 ==>
              d.avgBrutalityScore == d.severityDistribution.WeightedSum() as real / d.totalFlaws as real
    ensures |d.recentWorkflows| <= RecentCount && |d.recentWorkflows| <= d.totalWorkflows
  {
    var workflows := WorkflowsOf(t.workflows, userId);
    var flaws := UserFlaws(t, workflows);
    CountsSumToLength(FlawTypes(flaws));
    TallyTotal(Severities(flaws));
    TallyWeightedSum(Severities(flaws));
    RecentMeaning(workflows);
  }

  // ---------------------------------------------------------------- charts

  function Colors(palette: seq<string>, n: nat): (r: seq<string>)
    ensures |r| == Min(n, |palette|) && r <= palette
  {
    palette[..Min(n, |palette|)]
  }

  /** A pie chart of how often each key occurs, keys in first-occurrence order. */
  function PieOf(keys: seq<string>, palette: seq<string>): Chart {
    CountMapMeaning(keys);
    var labels := Distinct(keys);
    Chart(labels, Values(labels, CountMap(keys)), Colors(palette, |labels|))
  }

  /** The counting loop of `_get_flaw_types_chart_data` and `_get_workflow_status_chart_data`. */
  method PieChart(keys: seq<string>, palette: seq<string>) returns (c: Chart)
    ensures c == PieOf(keys, palette)
  {
    var labels, counts := CountByKey(keys);
    CountMapMeaning(keys);
    c := Chart(labels, Values(labels, counts), Colors(palette, |labels|));
  }

  /**
   * Each key that occurs appears once as a label with its number of occurrences, the slices
   * add up to the number of keys, and each label gets the next palette colour while they last.
   */
  lemma PieOfMeaning(keys: seq<string>, palette: seq<string>)
    ensures NoDup(PieOf(keys, palette).labels)
    ensures forall k :: k in PieOf(keys, palette).labels <==> k in keys
    ensures |PieOf(keys, palette).data| == |PieOf(keys, palette).labels|
    ensures forall i :: 0 <= i < |PieOf(keys, palette).labels| ==>
              PieOf(keys, palette).data[i] == Count(keys, PieOf(keys, palette).labels[i]) >= 1
    ensures Sum(PieOf(keys, palette).data) == |keys|
    ensures PieOf(keys, palette).colors == palette[..Min(|PieOf(keys, palette).labels|, |palette|)]
  {
    var c := PieOf(keys, palette);
    CountMapMeaning(keys);
    CountsSumToLength(keys);
    SumOfValues(c.labels, CountMap(keys));
    forall i | 0 <= i < |c.labels|
      ensures c.data[i] == Count(keys, c.labels[i]) >= 1
    {
      CountPositive(keys, c.labels[i]);
    }
  }

  /**
   * Slices follow the order in which their keys first occur, as the counting dict keeps them,
   * so the palette colours go to the keys in that order.
   */
  lemma PieFollowsFirstOccurrence(keys: seq<string>, palette: seq<string>, i: nat, j: nat)
    requires i < j < |PieOf(keys, palette).labels|
    ensures PieOf(keys, palette).labels[i] in keys && PieOf(keys, palette).labels[j] in keys
    ensures FirstIndex(keys, PieOf(keys, palette).labels[i]) < FirstIndex(keys, PieOf(keys, palette).labels[j])
  {
    DistinctInFirstOccurrenceOrder(keys, i, j);
  }

  function SeverityChartOf(flaws: seq<FlawRec>): Chart {
    var c := Tally(Severities(flaws));
    Chart(SeverityLabels, [c.critical, c.high, c.medium, c.low], SeverityColors)
  }

  /** `_get_severity_distribution_chart_data`: the tally loop over the flaws' severities. */
  method SeverityChart(flaws: seq<FlawRec>) returns (c: Chart)
    ensures c == SeverityChartOf(flaws)
  {
    var counts := TallySeverities(Severities(flaws));
    c := Chart(SeverityLabels, [counts.critical, counts.high, counts.medium, counts.low], SeverityColors);
  }

  /**
   * One bar per known severity, most severe first, each the number of flaws of that severity;
   * flaws of any other severity are in no bar.
   */
  lemma SeverityChartMeaning(flaws: seq<FlawRec>)
    ensures |SeverityChartOf(flaws).data| == |SeverityLabels|
    ensures forall i :: 0 <= i < 4 ==>
              SeverityChartOf(flaws).data[i] == Occurrences(Severities(flaws), [Critical, High, Medium, Low][i])
    ensures Sum(SeverityChartOf(flaws).data) == KnownCount(Severities(flaws)) <= |flaws|
  {
    var sevs := Severities(flaws);
    var c := SeverityChartOf(flaws);
    TallyCountsOccurrences(sevs);
    TallyTotal(sevs);
    var t := Tally(sevs);
    assert c.data[..3] == [t.critical, t.high, t.medium];
    assert [t.critical, t.high, t.medium][..2] == [t.critical, t.high];
    assert [t.critical, t.high][..1] == [t.critical];
    assert Sum([t.critical]) == t.critical;
    assert Sum([t.critical, t.high]) == t.critical + t.high;
    assert Sum([t.critical, t.high, t.medium]) == t.critical + t.high + t.medium;
  }

  function DayKey(d: int): Key {
    Key(d, 0)
  }

  /** Sorting distinct days gives them in strictly increasing order. */
  lemma SortedDays(days: seq<int>)
    requires NoDup(days)
    ensures forall d :: d in SortBy(days, DayKey) <==> d in days
    ensures forall i :: 0 <= i < |SortBy(days, DayKey)| ==> SortBy(days, DayKey)[i] in days
    ensures forall i, j :: 0 <= i < j < |SortBy(days, DayKey)| ==> SortBy(days, DayKey)[i] < SortBy(days, DayKey)[j]
  {
    var sorted := SortBy(days, DayKey);
    SortBySorted(days, DayKey);
    NoDupPermutation(days, sorted);
    forall d
      ensures d in sorted <==> d in days
    {
      assert d in sorted <==> d in multiset(sorted);
    }
  }

  function FlawsOverTimeOf(flaws: seq<FlawRec>): LineChart<nat> {
    var days := Days(flaws);
    CountMapMeaning(days);
    SortedDays(Distinct(days));
    var labels := SortBy(Distinct(days), DayKey);
    LineChart(labels, Values(labels, CountMap(days)), FlawsOverTimeColor)
  }

  /** `_get_flaws_over_time_chart_data`: count by day, then sort the days. */
  method FlawsOverTime(flaws: seq<FlawRec>) returns (c: LineChart<nat>)
    ensures c == FlawsOverTimeOf(flaws)
  {
    var days, counts := CountByKey(Days(flaws));
    CountMapMeaning(Days(flaws));
    SortedDays(days);
    var labels := SortBy(days, DayKey);
    c := LineChart(labels, Values(labels, counts), FlawsOverTimeColor);
  }

  /**
   * One point per day on which a flaw was recorded, days strictly increasing, each the number
   * of flaws of that day; the points add up to the number of flaws.
   */
  lemma FlawsOverTimeMeaning(flaws: seq<FlawRec>)
    ensures forall d :: d in FlawsOverTimeOf(flaws).labels <==> exists f :: f in flaws && f.createdAt.day == d
    ensures forall i, j :: 0 <= i < j < |FlawsOverTimeOf(flaws).labels| ==>
              FlawsOverTimeOf(flaws).labels[i] < FlawsOverTimeOf(flaws).labels[j]
    ensures |FlawsOverTimeOf(flaws).data| == |FlawsOverTimeOf(flaws).labels|
    ensures forall i :: 0 <= i < |FlawsOverTimeOf(flaws).labels| ==>
              FlawsOverTimeOf(flaws).data[i] == Count(Days(flaws), FlawsOverTimeOf(flaws).labels[i]) >= 1
    ensures Sum(FlawsOverTimeOf(flaws).data) == |flaws|
  {
    var days := Days(flaws);
    var c := FlawsOverTimeOf(flaws);
    CountMapMeaning(days);
    SortedDays(Distinct(days));
    forall d
      ensures d in c.labels <==> exists f :: f in flaws && f.createdAt.day == d
    {
      if d in days {
        var i :| 0 <= i < |days| && days[i] == d;
        assert flaws[i] in flaws;
      }
    }
    forall i | 0 <= i < |c.labels|
      ensures c.data[i] == Count(days, c.labels[i]) >= 1
    {
      CountPositive(days, c.labels[i]);
    }
    CountsSumToLength(days);
    SumCountsPermutation(Distinct(days), c.labels, CountMap(days));
    SumOfValues(c.labels, CountMap(days));
  }

  // ---------------------------------------------------------------- brutality trend

  /** The mean severity weight of one workflow's flaws. */
  function WorkflowScore(flaws: seq<FlawRec>, w: WorkflowRec): real {
    MeanWeight(Severities(FlawsOf(flaws, w.id)))
  }

  /** The dictionary `workflow_scores`: days in first-insertion order and the score last written. */
  datatype Scores = Scores(days: seq<int>, scores: map<int, real>)

  /** `workflow_scores` after the loop has visited `workflows`; workflows without flaws write nothing. */
  function TrendScores(workflows: seq<WorkflowRec>, flaws: seq<FlawRec>): (r: Scores)
    ensures NoDup(r.days)
    ensures forall d :: d in r.days <==> d in r.scores
    decreases |workflows|
  {
    if workflows == [] then Scores([], map[])
    else
      var prev := TrendScores(workflows[..|workflows| - 1], flaws);
      var w := workflows[|workflows| - 1];
      if FlawsOf(flaws, w.id) == [] then prev
      else
        var d := w.createdAt.day;
        Scores(if d in prev.scores then prev.days else prev.days + [d], prev.scores[d := WorkflowScore(flaws, w)])
  }

  /** The position of the last workflow of day `d` that has flaws, if any. */
  function LastScored(workflows: seq<WorkflowRec>, flaws: seq<FlawRec>, d: int): (r: Option<nat>)
    ensures r.Some? ==> r.value < |workflows| && workflows[r.value].createdAt.day == d
                        && FlawsOf(flaws, workflows[r.value].id) != []
    ensures r.Some? ==> forall j :: r.value < j < |workflows| && workflows[j].createdAt.day == d ==>
                          FlawsOf(flaws, workflows[j].id) == []
    ensures r.None? ==> forall j :: 0 <= j < |workflows| && workflows[j].createdAt.day == d ==>
                          FlawsOf(flaws, workflows[j].id) == []
    decreases |workflows|
  {
    if workflows == [] then None
    else
      var last := |workflows| - 1;
      if workflows[last].createdAt.day == d && FlawsOf(flaws, workflows[last].id) != [] then Some(last)
      else
        assert forall j :: 0 <= j < last ==> workflows[..last][j] == workflows[j];
        LastScored(workflows[..last], flaws, d)
  }

  /**
   * A day has a score exactly when one of its workflows has flaws, and the score is that of
   * the last such workflow: later workflows of the same day overwrite earlier ones.
   */
  lemma {:induction false} TrendLastWins(workflows: seq<WorkflowRec>, flaws: seq<FlawRec>, d: int)
    ensures d in TrendScores(workflows, flaws).scores <==> LastScored(workflows, flaws, d).Some?
    ensures d in TrendScores(workflows, flaws).scores ==>
              TrendScores(workflows, flaws).scores[d] == WorkflowScore(flaws, workflows[LastScored(workflows, flaws, d).value])
    decreases |workflows|
  {
    if workflows != [] {
      var init := workflows[..|workflows| - 1];
      TrendLastWins(init, flaws, d);
      var l := LastScored(init, flaws, d);
      if l.Some? {
        assert workflows[l.value] == init[l.value];
      }
    }
  }

  function ScoresAt(labels: seq<int>, scores: map<int, real>): (r: seq<real>)
    requires forall i :: 0 <= i < |labels| ==> labels[i] in scores
    ensures |r| == |labels| && forall i :: 0 <= i < |labels| ==> r[i] == scores[labels[i]]
  {
    seq(|labels|, i requires 0 <= i < |labels| => scores[labels[i]])
  }

  function TrendOf(workflows: seq<WorkflowRec>, flaws: seq<FlawRec>): LineChart<real> {
    var s := TrendScores(workflows, flaws);
    SortedDays(s.days);
    var labels := SortBy(s.days, DayKey);
    LineChart(labels, ScoresAt(labels, s.scores), BrutalityTrendColor)
  }

  /** `_get_brutality_score_trend_data`. */
  method BrutalityTrend(workflows: seq<WorkflowRec>, flaws: seq<FlawRec>) returns (c: LineChart<real>)
    ensures c == TrendOf(workflows, flaws)
  {
    var days: seq<int> := [];
    var scores: map<int, real> := map[];
    for i := 0 to |workflows|
      invariant Scores(days, scores) == TrendScores(workflows[..i], flaws)
    {
      assert workflows[..i + 1][..i] == workflows[..i];
      var w := workflows[i];
      var workflowFlaws := FlawsOf(flaws, w.id);
      if workflowFlaws != [] {
        var d := w.createdAt.day;
        if d !in scores {
          days := days + [d];
        }
        scores := scores[d := MeanWeight(Severities(workflowFlaws))];
      }
    }
    assert workflows[..|workflows|] == workflows;
    SortedDays(days);
    var labels := SortBy(days, DayKey);
    c := LineChart(labels, ScoresAt(labels, scores), BrutalityTrendColor);
  }

  /**
   * One point per day on which some workflow has flaws, days strictly increasing, each the
   * mean severity weight of the last such workflow of that day, between 0 and 10.
   */
  lemma TrendMeaning(workflows: seq<WorkflowRec>, flaws: seq<FlawRec>)
    ensures forall d :: d in TrendOf(workflows, flaws).labels <==> LastScored(workflows, flaws, d).Some?
    ensures forall i, j :: 0 <= i < j < |TrendOf(workflows, flaws).labels| ==>
              TrendOf(workflows, flaws).labels[i] < TrendOf(workflows, flaws).labels[j]
    ensures |TrendOf(workflows, flaws).data| == |TrendOf(workflows, flaws).labels|
    ensures forall i :: 0 <= i < |TrendOf(workflows, flaws).labels| ==>
              var d := TrendOf(workflows, flaws).labels[i];
              LastScored(workflows, flaws, d).Some?
              && TrendOf(workflows, flaws).data[i] == WorkflowScore(flaws, workflows[LastScored(workflows, flaws, d).value])
              && 0.0 <= TrendOf(workflows, flaws).data[i] <= 10.0
  {
    var s := TrendScores(workflows, flaws);
    SortedDays(s.days);
    forall d
      ensures d in s.scores <==> LastScored(workflows, flaws, d).Some?
      ensures d in s.scores ==> s.scores[d] == WorkflowScore(flaws, workflows[LastScored(workflows, flaws, d).value])
    {
      TrendLastWins(workflows, flaws, d);
    }
  }

  // ---------------------------------------------------------------- charts endpoint

  function ChartsOf(workflows: seq<WorkflowRec>, flaws: seq<FlawRec>): DashboardCharts {
    DashboardCharts(
      PieOf(FlawTypes(flaws), FlawTypeColors),
      SeverityChartOf(flaws),
      PieOf(Statuses(workflows), StatusColors),
      FlawsOverTimeOf(flaws),
      TrendOf(workflows, flaws))
  }

  method GetDashboardCharts(t: Tables, userId: int, currentUserId: int)
    returns (r: Result<Response<DashboardCharts, string>, HttpError>)
    ensures userId != currentUserId ==> r == Err(NoPermissionDashboard)
    ensures userId == currentUserId ==>
              var workflows := WorkflowsOf(t.workflows, userId);
              r.Ok? && WellFormed(r.value) && r.value.success && r.value.message == ChartsMessage
              && r.value.data == Some(ChartsOf(workflows, UserFlaws(t, workflows)))
  {
    if userId != currentUserId {
      return Err(NoPermissionDashboard);
    }
    var workflows := WorkflowsOf(t.workflows, userId);
    var flaws := UserFlaws(t, workflows);
    var types := PieChart(FlawTypes(flaws), FlawTypeColors);
    var severities := SeverityChart(flaws);
    var statuses := PieChart(Statuses(workflows), StatusColors);
    var overTime := FlawsOverTime(flaws);
    var trend := BrutalityTrend(workflows, flaws);
    return Ok(SuccessResponse(ChartsMessage, Some(DashboardCharts(types, severities, statuses, overTime, trend))));
  }
}
