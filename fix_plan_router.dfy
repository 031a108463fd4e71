/**
 * The fix-plan endpoints (backend/routers/fix_plan.py): the plan of one workflow with its
 * summary, the suggestions of one flaw, the plan ordered by priority and severity, and the
 * total-time estimate built from the suggestions' free-text estimates.
 */
module FixPlanRouter {
  import opened Wrappers
  import opened Text
  import opened Http
  import opened Store
  import opened Responses
  import opened Priority
  import opened StableSort
  import Severity

  // ----- total time -----

  /** What one estimate adds: whole working days or hours. */
  datatype Effort = Effort(days: int, hours: int)

  const NoEffort := Effort(0, 0)

  /** `int(s.split()[0])`, or None when `s` is blank or its first word is not an integer. */
  function LeadingInt(s: string): Option<int> {
    match FirstToken(s)
    case None => None
    case Some(tok) => ParseInt(tok)
  }

  /**
   * One estimate: skipped when missing or empty; otherwise the first word is read as a number
   * of days if the text mentions "day", of weeks (five days each) if it mentions "week", of
   * hours if it mentions "hour", checked in that order on the lower-cased text. A first word
   * that is not an integer adds nothing.
   */
  function EstimateEffort(estimate: Option<string>): Effort {
    if estimate.None? || estimate.value == [] then NoEffort
    else
      var text := Lower(estimate.value);
      var n := LeadingInt(estimate.value).GetOr(0);
      if Contains(text, "day") then Effort(n, 0)
      else if Contains(text, "week") then Effort(5 * n, 0)
      else if Contains(text, "hour") then Effort(0, n)
      else NoEffort
  }

  function TotalDays(estimates: seq<Option<string>>): int
    decreases |estimates|
  {
    if estimates == [] then 0
    else TotalDays(estimates[..|estimates| - 1]) + EstimateEffort(estimates[|estimates| - 1]).days
  }

  function TotalHours(estimates: seq<Option<string>>): int
    decreases |estimates|
  {
    if estimates == [] then 0
    else TotalHours(estimates[..|estimates| - 1]) + EstimateEffort(estimates[|estimates| - 1]).hours
  }

  const TimeNotSpecified := "Time not specified"

  /** Days win over hours; hours are only reported when there are no days. */
  function TimeText(days: int, hours: int): string {
    if days > 0 then IntToString(days) + " days"
    else if hours > 0 then IntToString(hours) + " hours"
    else TimeNotSpecified
  }

  /** `_calculate_total_time`. */
  method CalculateTotalTime(estimates: seq<Option<string>>) returns (text: string)
    ensures text == TimeText(TotalDays(estimates), TotalHours(estimates))
  {
    var totalDays, totalHours := 0, 0;
    for i := 0 to |estimates|
      invariant totalDays == TotalDays(estimates[..i])
      invariant totalHours == TotalHours(estimates[..i])
    {
      assert estimates[..i + 1][..i] == estimates[..i];
      var estimate := estimates[i];
      if estimate.None? || estimate.value == [] {
        continue;
      }
      var lower := Lower(estimate.value);
      var n := LeadingInt(estimate.value);
      if Contains(lower, "day") {
        if n.Some? {
          totalDays := totalDays + n.value;
        }
      } else if Contains(lower, "week") {
        if n.Some? {
          totalDays := totalDays + n.value * 5;
        }
      } else if Contains(lower, "hour") {
        if n.Some? {
          totalHours := totalHours + n.value;
        }
      }
    }
    assert estimates[..|estimates|] == estimates;
    text := TimeText(totalDays, totalHours);
  }

  /**
   * The total reads back as itself: fed to the same estimate rule, "<d> days" is d days,
   * "<h> hours" is h hours and "Time not specified" is nothing.
   */
  lemma TimeTextReadsBack(days: int, hours: int)
    ensures EstimateEffort(Some(TimeText(days, hours)))
            == if days > 0 then Effort(days, 0) else if hours > 0 then Effort(0, hours) else NoEffort
  {
    if days > 0 {
      DaysReadBack(days);
    } else if hours > 0 {
      HoursReadBack(hours);
    } else {
      NothingReadsBack();
    }
  }

  lemma DayEffort(s: string, n: int)
    requires s != [] && Contains(Lower(s), "day") && LeadingInt(s) == Some(n)
    ensures EstimateEffort(Some(s)) == Effort(n, 0)
  {
  }

  lemma WeekEffort(s: string)
    requires s != [] && !Contains(Lower(s), "day") && Contains(Lower(s), "week")
    ensures EstimateEffort(Some(s)) == Effort(5 * LeadingInt(s).GetOr(0), 0)
  {
  }

  lemma HourEffort(s: string, n: int)
    requires s != [] && !Contains(Lower(s), "day") && !Contains(Lower(s), "week") && Contains(Lower(s), "hour")
    requires LeadingInt(s) == Some(n)
    ensures EstimateEffort(Some(s)) == Effort(0, n)
  {
  }

  /** A printed positive integer followed by a space has that integer as its leading integer. */
  lemma NumberThenWord(n: int, rest: string)
    requires n > 0 && |rest| > 0 && rest[0] == ' '
    ensures AllDigits(IntToString(n)) && LeadingInt(IntToString(n) + rest) == Some(n)
  {
    var w := IntToString(n);
    assert AllDigits(w);
    FirstTokenOfDigits(w, rest);
    IntToStringRoundTrip(n);
  }

  lemma DaysReadBack(n: int)
    requires n > 0
    ensures EstimateEffort(Some(IntToString(n) + " days")) == Effort(n, 0)
  {
    DayUnitEffort(n, " days");
  }

  lemma HoursReadBack(n: int)
    requires n > 0
    ensures EstimateEffort(Some(IntToString(n) + " hours")) == Effort(0, n)
  {
    HourUnitEffort(n, " hours");
  }

  /** The shape of a unit word after the number: a space first and no upper-case letters. */
  predicate UnitWord(unit: string) {
    |unit| > 0 && unit[0] == ' ' && forall i :: 0 <= i < |unit| ==> !('A' <= unit[i] <= 'Z')
  }

  lemma DayUnitEffort(n: int, unit: string)
    requires n > 0 && UnitWord(unit) && OccursAt(unit, "day", 1)
    ensures EstimateEffort(Some(IntToString(n) + unit)) == Effort(n, 0)
  {
    var w := IntToString(n);
    NumberThenWord(n, unit);
    LowerOfDigitsThen(w, unit);
    ContainedAfter(w, unit, "day", 1);
    DayEffort(w + unit, n);
  }

  lemma WeekUnitEffort(n: int, unit: string)
    requires n > 0 && UnitWord(unit) && 'd' !in unit && OccursAt(unit, "week", 1)
    ensures EstimateEffort(Some(IntToString(n) + unit)) == Effort(5 * n, 0)
  {
    var w := IntToString(n);
    NumberThenWord(n, unit);
    LowerOfDigitsThen(w, unit);
    NotContainedAfterDigits(w, unit, "day", 'd');
    ContainedAfter(w, unit, "week", 1);
    WeekEffort(w + unit);
  }

  lemma HourUnitEffort(n: int, unit: string)
    requires n > 0 && UnitWord(unit) && 'd' !in unit && 'w' !in unit && OccursAt(unit, "hour", 1)
    ensures EstimateEffort(Some(IntToString(n) + unit)) == Effort(0, n)
  {
    var w := IntToString(n);
    NumberThenWord(n, unit);
    LowerOfDigitsThen(w, unit);
    NotContainedAfterDigits(w, unit, "day", 'd');
    NotContainedAfterDigits(w, unit, "week", 'w');
    ContainedAfter(w, unit, "hour", 1);
    HourEffort(w + unit, n);
  }

  lemma NothingReadsBack()
    ensures EstimateEffort(Some(TimeNotSpecified)) == NoEffort
  {
    var s := TimeNotSpecified;
    LowerMissingChar(s, 'y');
    LowerMissingChar(s, 'w');
    LowerMissingChar(s, 'h');
    MissingCharNotContained(Lower(s), "day", 'y');
    MissingCharNotContained(Lower(s), "week", 'w');
    MissingCharNotContained(Lower(s), "hour", 'h');
    NoUnitEffort(s);
  }

  lemma NoUnitEffort(s: string)
    requires s != [] && !Contains(Lower(s), "day") && !Contains(Lower(s), "week") && !Contains(Lower(s), "hour")
    ensures EstimateEffort(Some(s)) == NoEffort
  {
  }

  /** An estimate whose first word is not an integer adds nothing, whatever unit it names. */
  lemma UnparsableAddsNothing(estimate: string)
    requires LeadingInt(estimate) == None
    ensures EstimateEffort(Some(estimate)) == NoEffort
  {
  }

  /** A range such as "2-3 weeks" or "2-3 days" is not an integer, so it adds nothing. */
  lemma RangeAddsNothing(low: string, high: string, unit: string)
    requires |low| > 0 && AllDigits(low) && |high| > 0 && AllDigits(high)
    requires |unit| > 0 && IsPyWhitespace(unit[0])
    ensures EstimateEffort(Some(low + "-" + high + unit)) == NoEffort
  {
    var range := low + "-" + high;
    assert range + unit == low + "-" + high + unit;
    assert range[|low|] == '-';
    forall i | 0 <= i < |range|
      ensures !IsPyWhitespace(range[i])
    {
      if i < |low| {
        assert range[i] == low[i];
      } else if i > |low| {
        assert range[i] == high[i - |low| - 1];
      }
    }
    FirstTokenOfWord(range, unit);
    assert !IsDigit(range[|low|]);
    assert !AllDigits(range);
    assert !(range[0] == '-' || range[0] == '+') by {
      assert range[0] == low[0];
    }
    UnparsableAddsNothing(range + unit);
  }

  /** "<n> week" and "<n> weeks" count five working days per week. */
  lemma WeeksAreFiveDays(n: int, unit: string)
    requires n > 0 && (unit == " week" || unit == " weeks")
    ensures EstimateEffort(Some(IntToString(n) + unit)) == Effort(5 * n, 0)
  {
    WeekUnitEffort(n, unit);
  }

  // ----- endpoints -----

  const NoPermissionFixPlan := HttpError(Forbidden, "You don't have permission to view this fix plan")
  const NoPermissionFlaw := HttpError(Forbidden, "You don't have permission to view this flaw")
  const FlawNotFound := HttpError(NotFound, "Flaw not found")
  const NoFlawsMessage := "No flaws found for this workflow"
  const FixPlanMessage := "Fix plan retrieved successfully"
  const NoFlawsTime := "0 hours"

  datatype PlanEntry = PlanEntry(flaw: FlawRec, suggestions: seq<SuggestionRec>)

  datatype PlanSummary = PlanSummary(
    totalSuggestions: nat, highPriority: nat, mediumPriority: nat, lowPriority: nat, estimatedTotalTime: string)

  datatype FixPlan = FixPlan(workflowId: int, workflowName: string, plan: seq<PlanEntry>, summary: PlanSummary)

  function SuggestionPriority(s: SuggestionRec): int {
    s.priority
  }

  /** Every suggestion of every entry, entry by entry. */
  function Flatten(entries: seq<PlanEntry>): seq<SuggestionRec>
    decreases |entries|
  {
    if entries == [] then [] else Flatten(entries[..|entries| - 1]) + entries[|entries| - 1].suggestions
  }

  function Estimates(suggestions: seq<SuggestionRec>): (r: seq<Option<string>>)
    ensures |r| == |suggestions| && forall i :: 0 <= i < |r| ==> r[i] == suggestions[i].estimatedTime
  {
    seq(|suggestions|, i requires 0 <= i < |suggestions| => suggestions[i].estimatedTime)
  }

  /**
   * The summary of a non-empty plan: the suggestion total, the three priority counts, which
   * add up to the total, and the total time of their estimates.
   */
  ghost predicate SummaryOf(summary: PlanSummary, all: seq<SuggestionRec>) {
    summary.totalSuggestions == |all|
    && summary.highPriority == |InBucket(all, SuggestionPriority, Immediate)|
    && summary.mediumPriority == |InBucket(all, SuggestionPriority, ShortTerm)|
    && summary.lowPriority == |InBucket(all, SuggestionPriority, LongTerm)|
    && summary.highPriority + summary.mediumPriority + summary.lowPriority == summary.totalSuggestions
    && summary.estimatedTotalTime == TimeText(TotalDays(Estimates(all)), TotalHours(Estimates(all)))
  }

  /** The `fix_plan` loop: one entry per flaw, in order, holding exactly that flaw's suggestions. */
  method BuildPlan(t: Tables, flaws: seq<FlawRec>) returns (plan: seq<PlanEntry>)
    ensures |plan| == |flaws|
    ensures forall k :: 0 <= k < |flaws| ==> plan[k] == PlanEntry(flaws[k], SuggestionsOf(t.suggestions, flaws[k].id))
  {
    plan := [];
    for i := 0 to |flaws|
      invariant |plan| == i
      invariant forall k :: 0 <= k < i ==> plan[k] == PlanEntry(flaws[k], SuggestionsOf(t.suggestions, flaws[k].id))
    {
      plan := plan + [PlanEntry(flaws[i], SuggestionsOf(t.suggestions, flaws[i].id))];
    }
  }

  /** The `all_suggestions.extend` loop: every entry's suggestions, entry by entry, in order. */
  method AllSuggestions(plan: seq<PlanEntry>) returns (all: seq<SuggestionRec>)
    ensures all == Flatten(plan)
  {
    all := [];
    for i := 0 to |plan|
      invariant all == Flatten(plan[..i])
    {
      assert plan[..i + 1][..i] == plan[..i];
      all := all + plan[i].suggestions;
    }
    assert plan[..|plan|] == plan;
  }

  /**
   * `get_fix_plan`: 404 or 403 before anything is read; otherwise one entry per flaw of the
   * workflow, in order, each with exactly that flaw's suggestions, and a summary over all of them
   * ("0 hours" and zero counts when the workflow has no flaws).
   */
  method GetFixPlan(t: Tables, workflowId: int, userId: int) returns (r: Result<Response<FixPlan, string>, HttpError>)
    ensures OwnedWorkflow(t, workflowId, userId, NoPermissionFixPlan).Err? ==>
              r == Err(OwnedWorkflow(t, workflowId, userId, NoPermissionFixPlan).error)
    ensures OwnedWorkflow(t, workflowId, userId, NoPermissionFixPlan).Ok? ==>
              r.Ok? && WellFormed(r.value) && r.value.success && r.value.data.Some?
    ensures r.Ok? ==>
              var flaws := FlawsOf(t.flaws, workflowId);
              var d := r.value.data.value;
              d.workflowId == workflowId
              && d.workflowName == OwnedWorkflow(t, workflowId, userId, NoPermissionFixPlan).value.name
              && |d.plan| == |flaws|
              && (forall i :: 0 <= i < |flaws| ==> d.plan[i] == PlanEntry(flaws[i], SuggestionsOf(t.suggestions, flaws[i].id)))
              && (flaws == [] ==> r.value.message == NoFlawsMessage && d.summary == PlanSummary(0, 0, 0, 0, NoFlawsTime))
              && (flaws != [] ==> r.value.message == FixPlanMessage && SummaryOf(d.summary, Flatten(d.plan)))
  {
    var owned := OwnedWorkflow(t, workflowId, userId, NoPermissionFixPlan);
    if owned.Err? {
      return Err(owned.error);
    }
    var workflow := owned.value;
    var flaws := FlawsOf(t.flaws, workflowId);
    if flaws == [] {
      return Ok(SuccessResponse(NoFlawsMessage,
        Some(FixPlan(workflowId, workflow.name, [], PlanSummary(0, 0, 0, 0, NoFlawsTime)))));
    }
    var plan := BuildPlan(t, flaws);
    var all := AllSuggestions(plan);
    var time := CalculateTotalTime(Estimates(all));
    BucketsPartition(all, SuggestionPriority);
    var summary := PlanSummary(|all|,
      |InBucket(all, SuggestionPriority, Immediate)|,
      |InBucket(all, SuggestionPriority, ShortTerm)|,
      |InBucket(all, SuggestionPriority, LongTerm)|,
      time);
    r := Ok(SuccessResponse(FixPlanMessage, Some(FixPlan(workflowId, workflow.name, plan, summary))));
  }

  datatype FlawSuggestions = FlawSuggestions(
    flawId: int, flawTitle: string, flawSeverity: string, suggestions: seq<SuggestionRec>)

  /**
   * `get_flaw_suggestions`: 404 for an unknown flaw, then the ownership check on its workflow;
   * otherwise exactly the suggestions attached to the flaw.
   */
  function GetFlawSuggestions(t: Tables, flawId: int, userId: int): (r: Result<Response<FlawSuggestions, string>, HttpError>)
    ensures FindFlaw(t.flaws, flawId).None? ==> r == Err(FlawNotFound)
    ensures FindFlaw(t.flaws, flawId).Some? ==>
              var owned := OwnedWorkflow(t, FindFlaw(t.flaws, flawId).value.workflowId, userId, NoPermissionFlaw);
              (owned.Err? ==> r == Err(owned.error)) && (owned.Ok? ==> r.Ok?)
    ensures r.Ok? ==>
              var d := r.value.data;
              WellFormed(r.value) && r.value.success && d.Some? && d.value.flawId == flawId
              && d.value.flawTitle == FindFlaw(t.flaws, flawId).value.title
              && d.value.flawSeverity == FindFlaw(t.flaws, flawId).value.severity
              && (forall s :: s in d.value.suggestions <==> s in t.suggestions && s.flawId == flawId)
  {
    match FindFlaw(t.flaws, flawId)
    case None => Err(FlawNotFound)
    case Some(flaw) =>
      match OwnedWorkflow(t, flaw.workflowId, userId, NoPermissionFlaw)
      case Err(e) => Err(e)
      case Ok(_) =>
        Ok(SuccessResponse("Fix suggestions retrieved successfully",
          Some(FlawSuggestions(flawId, flaw.title, flaw.severity, SuggestionsOf(t.suggestions, flawId)))))
  }

  /** A suggestion together with the flaw it belongs to. */
  datatype PrioritizedItem = PrioritizedItem(suggestion: SuggestionRec, flaw: FlawRec)

  /** The sort key: suggestion priority first, then flaw severity rank (critical first, unknown last). */
  function ItemKey(x: PrioritizedItem): Key {
    Key(x.suggestion.priority, Severity.Rank(x.flaw.severity))
  }

  function ItemPriority(x: PrioritizedItem): int {
    x.suggestion.priority
  }

  function Paired(suggestions: seq<SuggestionRec>, flaw: FlawRec): (r: seq<PrioritizedItem>)
    ensures |r| == |suggestions| && forall i :: 0 <= i < |r| ==> r[i] == PrioritizedItem(suggestions[i], flaw)
  {
    seq(|suggestions|, i requires 0 <= i < |suggestions| => PrioritizedItem(suggestions[i], flaw))
  }

  lemma PairedAppend(suggestions: seq<SuggestionRec>, s: SuggestionRec, flaw: FlawRec)
    ensures Paired(suggestions + [s], flaw) == Paired(suggestions, flaw) + [PrioritizedItem(s, flaw)]
  {
    var a, b := Paired(suggestions + [s], flaw), Paired(suggestions, flaw) + [PrioritizedItem(s, flaw)];
    assert |a| == |b|;
    forall i | 0 <= i < |a|
      ensures a[i] == b[i]
    {
      if i < |suggestions| {
        assert (suggestions + [s])[i] == suggestions[i];
      }
    }
  }

  /** Every suggestion of every flaw, flaw by flaw, paired with its flaw. */
  function ItemsOf(t: Tables, flaws: seq<FlawRec>): seq<PrioritizedItem>
    decreases |flaws|
  {
    if flaws == [] then []
    else
      var last := flaws[|flaws| - 1];
      ItemsOf(t, flaws[..|flaws| - 1]) + Paired(SuggestionsOf(t.suggestions, last.id), last)
  }

  datatype PrioritizedPlan = PrioritizedPlan(
    workflowId: int, workflowName: string, highPriority: seq<PrioritizedItem>,
    mediumPriority: seq<PrioritizedItem>, lowPriority: seq<PrioritizedItem>, totalSuggestions: nat)

  lemma ItemsOfStep(t: Tables, flaws: seq<FlawRec>, i: nat)
    requires i < |flaws|
    ensures ItemsOf(t, flaws[..i + 1])
            == ItemsOf(t, flaws[..i]) + Paired(SuggestionsOf(t.suggestions, flaws[i].id), flaws[i])
  {
    assert flaws[..i + 1][..i] == flaws[..i];
  }

  /** The collecting loop: for each flaw in turn, each of its suggestions paired with it. */
  method CollectItems(t: Tables, flaws: seq<FlawRec>) returns (items: seq<PrioritizedItem>)
    ensures items == ItemsOf(t, flaws)
  {
    items := [];
    for i := 0 to |flaws|
      invariant items == ItemsOf(t, flaws[..i])
    {
      var paired := PairWith(SuggestionsOf(t.suggestions, flaws[i].id), flaws[i]);
      ItemsOfStep(t, flaws, i);
      items := items + paired;
    }
    assert flaws[..|flaws|] == flaws;
  }

  /** The inner loop: each suggestion of one flaw, in order, paired with that flaw. */
  method PairWith(suggestions: seq<SuggestionRec>, flaw: FlawRec) returns (items: seq<PrioritizedItem>)
    ensures items == Paired(suggestions, flaw)
  {
    items := [];
    for j := 0 to |suggestions|
      invariant items == Paired(suggestions[..j], flaw)
    {
      assert suggestions[..j + 1] == suggestions[..j] + [suggestions[j]];
      PairedAppend(suggestions[..j], suggestions[j], flaw);
      items := items + [PrioritizedItem(suggestions[j], flaw)];
    }
    assert suggestions[..|suggestions|] == suggestions;
  }

  /** The grouping loop: priority 2 or less, exactly 3, anything else. */
  method GroupByPriority(items: seq<PrioritizedItem>) returns (high: seq<PrioritizedItem>, medium: seq<PrioritizedItem>, low: seq<PrioritizedItem>)
    ensures high == InBucket(items, ItemPriority, Immediate)
    ensures medium == InBucket(items, ItemPriority, ShortTerm)
    ensures low == InBucket(items, ItemPriority, LongTerm)
  {
    high, medium, low := [], [], [];
    for i := 0 to |items|
      invariant high == InBucket(items[..i], ItemPriority, Immediate)
      invariant medium == InBucket(items[..i], ItemPriority, ShortTerm)
      invariant low == InBucket(items[..i], ItemPriority, LongTerm)
    {
      var item := items[i];
      assert items[..i + 1] == items[..i] + [item];
      InBucketAppend(items[..i], item, ItemPriority, Immediate);
      InBucketAppend(items[..i], item, ItemPriority, ShortTerm);
      InBucketAppend(items[..i], item, ItemPriority, LongTerm);
      if item.suggestion.priority <= 2 {
        high := high + [item];
      } else if item.suggestion.priority == 3 {
        medium := medium + [item];
      } else {
        low := low + [item];
      }
    }
    assert items[..|items|] == items;
  }

  /**
   * `get_prioritized_fix_plan`: 404 or 403 first; otherwise every suggestion of the workflow's
   * flaws, stably sorted by (priority, severity rank) and split into the three priority groups.
   */
  method GetPrioritizedFixPlan(t: Tables, workflowId: int, userId: int)
    returns (r: Result<Response<PrioritizedPlan, string>, HttpError>)
    ensures OwnedWorkflow(t, workflowId, userId, NoPermissionFixPlan).Err? ==>
              r == Err(OwnedWorkflow(t, workflowId, userId, NoPermissionFixPlan).error)
    ensures OwnedWorkflow(t, workflowId, userId, NoPermissionFixPlan).Ok? ==>
              r.Ok? && WellFormed(r.value) && r.value.success && r.value.data.Some?
    ensures r.Ok? ==>
              var items := ItemsOf(t, FlawsOf(t.flaws, workflowId));
              var sorted := SortBy(items, ItemKey);
              var d := r.value.data.value;
              d.workflowId == workflowId
              && d.workflowName == OwnedWorkflow(t, workflowId, userId, NoPermissionFixPlan).value.name
              && d.highPriority == InBucket(sorted, ItemPriority, Immediate)
              && d.mediumPriority == InBucket(sorted, ItemPriority, ShortTerm)
              && d.lowPriority == InBucket(sorted, ItemPriority, LongTerm)
              && d.totalSuggestions == |items|
  {
    var owned := OwnedWorkflow(t, workflowId, userId, NoPermissionFixPlan);
    if owned.Err? {
      return Err(owned.error);
    }
    var items := CollectItems(t, FlawsOf(t.flaws, workflowId));
    var sorted := SortBy(items, ItemKey);
    var high, medium, low := GroupByPriority(sorted);
    r := Ok(SuccessResponse("Prioritized fix plan retrieved successfully",
      Some(PrioritizedPlan(workflowId, owned.value.name, high, medium, low, |items|))));
  }

  /**
   * The prioritized plan's promises: each group is ordered by (priority, severity rank); the
   * groups together hold every suggestion exactly once; and suggestions with equal keys keep
   * the order in which their flaws were listed.
   */
  lemma PrioritizedPlanOrdered(items: seq<PrioritizedItem>, k: Key)
    ensures var sorted := SortBy(items, ItemKey);
            SortedBy(InBucket(sorted, ItemPriority, Immediate), ItemKey)
            && SortedBy(InBucket(sorted, ItemPriority, ShortTerm), ItemKey)
            && SortedBy(InBucket(sorted, ItemPriority, LongTerm), ItemKey)
            && multiset(InBucket(sorted, ItemPriority, Immediate)) + multiset(InBucket(sorted, ItemPriority, ShortTerm))
               + multiset(InBucket(sorted, ItemPriority, LongTerm)) == multiset(items)
            && WithKey(sorted, ItemKey, k) == WithKey(items, ItemKey, k)
  {
    var sorted := SortBy(items, ItemKey);
    SortBySorted(items, ItemKey);
    InBucketSorted(sorted, ItemPriority, Immediate, ItemKey);
    InBucketSorted(sorted, ItemPriority, ShortTerm, ItemKey);
    InBucketSorted(sorted, ItemPriority, LongTerm, ItemKey);
    BucketsPartition(sorted, ItemPriority);
    SortByStable(items, ItemKey, k);
  }
}
