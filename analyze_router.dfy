/**
 * The analysis endpoints (backend/routers/analyze.py): run the analysis of a workflow and store
 * its flaws and fix suggestions, read stored results back, and report a workflow's status.
 */
module AnalyzeRouter {
  import opened Wrappers
  import opened Json
  import opened Http
  import opened Store
  import opened Responses
  import opened Schemas
  import opened Severity
  import opened AiService

  const NoPermissionAnalyze := HttpError(Forbidden, "You don't have permission to analyze this workflow")
  const NoPermissionResults := HttpError(Forbidden, "You don't have permission to view this analysis")
  const NoPermissionStatus := HttpError(Forbidden, "You don't have permission to view this workflow")
  const NoResults := HttpError(NotFound, "No analysis results found for this workflow")
  /** Every failure inside the analysis, whatever the exception said after the colon. */
  const AnalysisFailed := HttpError(InternalError, "Analysis failed: ")
  const CompletedMessage := "Workflow analysis completed successfully"
  const ResultsMessage := "Analysis results retrieved successfully"
  const StatusMessage := "Analysis status retrieved successfully"

  datatype AnalysisResponse = AnalysisResponse(
    workflowId: int, flaws: seq<FlawRec>, fixSuggestions: seq<SuggestionRec>,
    brutalityScore: real, totalFlaws: nat, processingTime: real)

  datatype StatusInfo = StatusInfo(workflowId: int, status: string, updatedAt: DateTime)

  function Min(a: nat, b: nat): nat {
    if a < b then a else b
  }

  // ---------------------------------------------------------------- storing an analysis

  /** A flaw `FlawCreate` accepts: it has a severity, and severity and impact score are valid. */
  predicate StorableFlaw(fd: FlawData) {
    fd.severity.Some? && ValidFlawCreate(fd.severity.value, fd.impactScore.GetOr(DefaultImpactScore))
  }

  /** A suggestion `FixSuggestionCreate` accepts: it has a priority, and all constrained fields are valid. */
  predicate StorableSuggestion(sd: SuggestionData) {
    sd.priority.Some? && ValidSuggestionCreate(sd.effort, sd.impact, sd.priority.value)
  }

  /** The length of the longest prefix of `s` whose elements all satisfy `ok`. */
  function ValidPrefix<T>(s: seq<T>, ok: T -> bool): (n: nat)
    ensures n <= |s|
    ensures forall i :: 0 <= i < n ==> ok(s[i])
    ensures n < |s| ==> !ok(s[n])
    decreases |s|
  {
    if s == [] || !ok(s[0]) then 0
    else
      var n := ValidPrefix(s[1..], ok);
      assert forall i :: 1 <= i < n + 1 ==> s[i] == s[1..][i - 1];
      n + 1
  }

  /** The row `create_flaw` stores: a missing location becomes "", a missing impact score 0. */
  function FlawRow(id: int, workflowId: int, fd: FlawData, now: DateTime): FlawRec {
    FlawRec(id, workflowId, fd.flawType, fd.severity.GetOr(""), fd.title, fd.description,
            Some(fd.location.GetOr("")), fd.impactScore.GetOr(DefaultImpactScore), now)
  }

  /** The rows stored for `fds` after `start` existing flaws: ids continue from `start + 1`. */
  function FlawRows(start: nat, workflowId: int, fds: seq<FlawData>, now: DateTime): (r: seq<FlawRec>)
    ensures |r| == |fds|
    ensures forall i :: 0 <= i < |fds| ==> r[i] == FlawRow(start + i + 1, workflowId, fds[i], now)
  {
    seq(|fds|, i requires 0 <= i < |fds| => FlawRow(start + i + 1, workflowId, fds[i], now))
  }

  /** The row `create_fix_suggestion` stores: a missing time estimate becomes "". */
  function SuggestionRow(id: int, flawId: int, sd: SuggestionData, now: DateTime): SuggestionRec {
    SuggestionRec(id, flawId, sd.title, sd.description, sd.effort, sd.impact,
                  sd.priority.GetOr(DefaultPriority), Some(sd.estimatedTime.GetOr("")), now)
  }

  /** The rows stored for `sds`, the suggestion at position `i` linked to flaw `firstFlawId + i`. */
  function SuggestionRows(start: nat, firstFlawId: int, sds: seq<SuggestionData>, now: DateTime): (r: seq<SuggestionRec>)
    ensures |r| == |sds|
    ensures forall i :: 0 <= i < |sds| ==> r[i] == SuggestionRow(start + i + 1, firstFlawId + i, sds[i], now)
  {
    seq(|sds|, i requires 0 <= i < |sds| => SuggestionRow(start + i + 1, firstFlawId + i, sds[i], now))
  }

  /** The suggestions that have a flaw at their position; the rest are dropped. */
  function Linked(sds: seq<SuggestionData>, flawCount: nat): seq<SuggestionData> {
    sds[..Min(|sds|, flawCount)]
  }

  /** The workflow row after the analysis ended, failed or analysed. */
  function Ended(w: WorkflowRec, status: string, processed: Processed, now: DateTime): WorkflowRec {
    w.(status := status, processedData := processed, updatedAt := now)
  }

  /**
   * The `try` of `analyze_workflow` once the analysis has run: store every flaw, then every
   * suggestion that has a flaw at its position, then mark the workflow analysed. The first
   * flaw or suggestion that fails validation marks the workflow failed and ends with a 500;
   * each row stored before it has been committed and stays.
   */
  method SaveAnalysis(db: Database, index: nat, a: Analysis, now: DateTime)
    returns (r: Result<Response<AnalysisResponse, string>, HttpError>)
    requires db.Valid() && index < |db.workflows|
    modifies db
    ensures db.Valid()
    ensures var w := old(db.workflows)[index];
            var f0, s0 := |old(db.flaws)|, |old(db.suggestions)|;
            var nf := ValidPrefix(a.flaws, StorableFlaw);
            var linked := Linked(a.suggestions, |a.flaws|);
            var ns := ValidPrefix(linked, StorableSuggestion);
            if nf < |a.flaws| then
              r == Err(AnalysisFailed)
              && db.flaws == old(db.flaws) + FlawRows(f0, w.id, a.flaws[..nf], now)
              && db.suggestions == old(db.suggestions)
              && db.workflows == old(db.workflows)[index := Ended(w, "failed", w.processedData, now)]
            else if ns < |linked| then
              r == Err(AnalysisFailed)
              && db.flaws == old(db.flaws) + FlawRows(f0, w.id, a.flaws, now)
              && db.suggestions == old(db.suggestions) + SuggestionRows(s0, f0 + 1, linked[..ns], now)
              && db.workflows == old(db.workflows)[index := Ended(w, "failed", w.processedData, now)]
            else
              db.flaws == old(db.flaws) + FlawRows(f0, w.id, a.flaws, now)
              && db.suggestions == old(db.suggestions) + SuggestionRows(s0, f0 + 1, linked, now)
              && db.workflows == old(db.workflows)[index := Ended(w, "analyzed", Analysed(|a.flaws|, a.brutalityScore), now)]
              && r == Ok(SuccessResponse(CompletedMessage, Some(AnalysisResponse(
                           w.id, FlawRows(f0, w.id, a.flaws, now), SuggestionRows(s0, f0 + 1, linked, now),
                           a.brutalityScore, |a.flaws|, a.processingTime))))
  {
    var w := db.workflows[index];
    var f0, s0 := |db.flaws|, |db.suggestions|;
    var flaws := StoreFlaws(db, w.id, a.flaws, now);
    if |flaws| < |a.flaws| {
      db.UpdateWorkflow(index, "failed", w.processedData, now);
      return Err(AnalysisFailed);
    }
    assert a.flaws[..|a.flaws|] == a.flaws;
    var linked := Linked(a.suggestions, |a.flaws|);
    var suggestions := StoreSuggestions(db, flaws, f0 + 1, a.suggestions, now);
    if |suggestions| < |linked| {
      db.UpdateWorkflow(index, "failed", w.processedData, now);
      return Err(AnalysisFailed);
    }
    assert linked[..|linked|] == linked;
    db.UpdateWorkflow(index, "analyzed", Analysed(|flaws|, a.brutalityScore), now);
    r := Ok(SuccessResponse(CompletedMessage, Some(AnalysisResponse(
           w.id, flaws, suggestions, a.brutalityScore, |flaws|, a.processingTime))));
  }

  /**
   * The flaw loop: each flaw is validated and stored in turn; the first one `FlawCreate`
   * rejects stops it, and the flaws stored before it stay.
   */
  method StoreFlaws(db: Database, workflowId: int, fds: seq<FlawData>, now: DateTime) returns (flaws: seq<FlawRec>)
    requires db.Valid()
    modifies db
    ensures db.Valid()
    ensures flaws == FlawRows(|old(db.flaws)|, workflowId, fds[..ValidPrefix(fds, StorableFlaw)], now)
    ensures db.flaws == old(db.flaws) + flaws
    ensures db.workflows == old(db.workflows) && db.suggestions == old(db.suggestions)
  {
    var f0 := |db.flaws|;
    flaws := [];
    for i := 0 to |fds|
      invariant db.Valid()
      invariant db.workflows == old(db.workflows) && db.suggestions == old(db.suggestions)
      invariant forall k :: 0 <= k < i ==> StorableFlaw(fds[k])
      invariant flaws == FlawRows(f0, workflowId, fds[..i], now)
      invariant db.flaws == old(db.flaws) + flaws
    {
      var fd := fds[i];
      if !StorableFlaw(fd) {
        return;
      }
      var f := db.CreateFlaw(workflowId, fd.flawType, fd.severity.value, fd.title, fd.description,
                             Some(fd.location.GetOr("")), fd.impactScore.GetOr(DefaultImpactScore), now);
      flaws := flaws + [f];
    }
    assert fds[..|fds|] == fds;
  }

  /**
   * The suggestion loop: suggestion `i` is stored against flaw `i` while there is one; the
   * first suggestion `FixSuggestionCreate` rejects stops it, and those stored before it stay.
   */
  method StoreSuggestions(db: Database, flaws: seq<FlawRec>, firstFlawId: int, sds: seq<SuggestionData>, now: DateTime)
    returns (suggestions: seq<SuggestionRec>)
    requires db.Valid()
    requires forall i :: 0 <= i < |flaws| ==> flaws[i].id == firstFlawId + i
    modifies db
    ensures db.Valid()
    ensures var linked := Linked(sds, |flaws|);
            suggestions == SuggestionRows(|old(db.suggestions)|, firstFlawId, linked[..ValidPrefix(linked, StorableSuggestion)], now)
    ensures db.suggestions == old(db.suggestions) + suggestions
    ensures db.workflows == old(db.workflows) && db.flaws == old(db.flaws)
  {
    var s0 := |db.suggestions|;
    var linked := Linked(sds, |flaws|);
    suggestions := [];
    for i := 0 to |sds|
      invariant db.Valid()
      invariant db.workflows == old(db.workflows) && db.flaws == old(db.flaws)
      invariant forall k :: 0 <= k < Min(i, |linked|) ==> StorableSuggestion(linked[k])
      invariant suggestions == SuggestionRows(s0, firstFlawId, linked[..Min(i, |linked|)], now)
      invariant db.suggestions == old(db.suggestions) + suggestions
    {
      if i < |flaws| {
        var sd := sds[i];
        assert sd == linked[i];
        if !StorableSuggestion(sd) {
          return;
        }
        var s := db.CreateSuggestion(flaws[i].id, sd.title, sd.description, sd.effort, sd.impact,
                                     sd.priority.value, Some(sd.estimatedTime.GetOr("")), now);
        suggestions := suggestions + [s];
      }
    }
    assert linked[..|linked|] == linked;
  }

  /** The fixed analysis passes every validation: all four flaws and all four suggestions are stored. */
  lemma MockIsStorable()
    ensures ValidPrefix(MockFlaws, StorableFlaw) == |MockFlaws| == 4
    ensures Linked(MockSuggestions, |MockFlaws|) == MockSuggestions
    ensures ValidPrefix(MockSuggestions, StorableSuggestion) == |MockSuggestions| == 4
  {
    assert forall i :: 0 <= i < |MockFlaws| ==> StorableFlaw(MockFlaws[i]);
    assert forall i :: 0 <= i < |MockSuggestions| ==> StorableSuggestion(MockSuggestions[i]);
  }

  // ---------------------------------------------------------------- endpoints

  /** `GET /analyze/status/{id}`: the workflow's status and last update, for its owner. */
  function GetAnalysisStatus(t: Tables, workflowId: int, userId: int): (r: Result<Response<StatusInfo, string>, HttpError>)
    ensures r.Err? <==> OwnedWorkflow(t, workflowId, userId, NoPermissionStatus).Err?
    ensures r.Err? ==> r.error == OwnedWorkflow(t, workflowId, userId, NoPermissionStatus).error
    ensures r.Ok? ==>
              var w := OwnedWorkflow(t, workflowId, userId, NoPermissionStatus).value;
              r.value.success && r.value.message == StatusMessage
              && r.value.data == Some(StatusInfo(workflowId, w.status, w.updatedAt))
  {
    match OwnedWorkflow(t, workflowId, userId, NoPermissionStatus)
    case Err(e) => Err(e)
    case Ok(w) => Ok(SuccessResponse(StatusMessage, Some(StatusInfo(workflowId, w.status, w.updatedAt))))
  }

  /**
   * The part of `analyze_workflow` after the ownership check, on the workflow at `index`: it
   * goes to "processing", and then to "failed" with a 500 when its steps cannot be graphed, or
   * to "analyzed" with the four flaws and four suggestions of the fixed analysis stored, and
   * the response lists the stored rows with a score of 6 and the measured processing time.
   */
  method RunAnalysis(db: Database, index: nat, processingTime: real, now: DateTime)
    returns (r: Result<Response<AnalysisResponse, string>, HttpError>)
    requires db.Valid() && index < |db.workflows|
    modifies db
    ensures db.Valid()
    ensures var w := old(db.workflows)[index];
            var f0, s0 := |old(db.flaws)|, |old(db.suggestions)|;
            if !GraphBuildable(w.rawData) then
              r == Err(AnalysisFailed)
              && db.flaws == old(db.flaws) && db.suggestions == old(db.suggestions)
              && db.workflows == old(db.workflows)[index := Ended(w, "failed", w.processedData, now)]
            else
              r == Ok(SuccessResponse(CompletedMessage, Some(AnalysisResponse(
                     w.id, FlawRows(f0, w.id, MockFlaws, now), SuggestionRows(s0, f0 + 1, MockSuggestions, now),
                     6.0, 4, processingTime))))
              && db.flaws == old(db.flaws) + FlawRows(f0, w.id, MockFlaws, now)
              && db.suggestions == old(db.suggestions) + SuggestionRows(s0, f0 + 1, MockSuggestions, now)
              && db.workflows == old(db.workflows)[index := Ended(w, "analyzed", Analysed(4, 6.0), now)]
  {
    var w := db.workflows[index];
    ghost var ws := db.workflows;
    db.UpdateWorkflow(index, "processing", w.processedData, now);
    var analysis := AiService.AnalyzeWorkflow(w.rawData, processingTime);
    if analysis.Err? {
      db.UpdateWorkflow(index, "failed", w.processedData, now);
      EndedAfterProcessing(ws, index, "failed", w.processedData, now);
      return Err(AnalysisFailed);
    }
    var a := analysis.value;
    MockIsStorable();
    MockBrutalityIsSix();
    r := SaveAnalysis(db, index, a, now);
    EndedAfterProcessing(ws, index, "analyzed", Analysed(4, 6.0), now);
  }

  /** Marking a workflow "processing" and then ending it leaves it as if it had only been ended. */
  lemma EndedAfterProcessing(ws: seq<WorkflowRec>, index: nat, status: string, processed: Processed, now: DateTime)
    requires index < |ws|
    ensures var w := ws[index];
            var p := w.(status := "processing", processedData := w.processedData, updatedAt := now);
            ws[index := p][index := Ended(p, status, processed, now)] == ws[index := Ended(w, status, processed, now)]
  {
  }

  /**
   * `POST /analyze/`: 404 or 403 change nothing; otherwise the analysis runs on the workflow,
   * which sits at position `workflowId - 1`, and the status endpoint then reports the status
   * it ended in.
   */
  method AnalyzeWorkflow(db: Database, workflowId: int, userId: int, processingTime: real, now: DateTime)
    returns (r: Result<Response<AnalysisResponse, string>, HttpError>)
    requires db.Valid()
    modifies db
    ensures db.Valid()
    ensures OwnedWorkflow(old(db.Snapshot()), workflowId, userId, NoPermissionAnalyze).Err? ==>
              r == Err(OwnedWorkflow(old(db.Snapshot()), workflowId, userId, NoPermissionAnalyze).error)
              && unchanged(db)
    ensures OwnedWorkflow(old(db.Snapshot()), workflowId, userId, NoPermissionAnalyze).Ok? ==>
              var w := OwnedWorkflow(old(db.Snapshot()), workflowId, userId, NoPermissionAnalyze).value;
              var f0, s0 := |old(db.flaws)|, |old(db.suggestions)|;
              1 <= workflowId <= |old(db.workflows)| && old(db.workflows)[workflowId - 1] == w
              && (!GraphBuildable(w.rawData) ==>
                    r == Err(AnalysisFailed)
                    && db.flaws == old(db.flaws) && db.suggestions == old(db.suggestions)
                    && db.workflows == old(db.workflows)[workflowId - 1 := Ended(w, "failed", w.processedData, now)])
              && (GraphBuildable(w.rawData) ==>
                    r == Ok(SuccessResponse(CompletedMessage, Some(AnalysisResponse(
                           workflowId, FlawRows(f0, workflowId, MockFlaws, now),
                           SuggestionRows(s0, f0 + 1, MockSuggestions, now), 6.0, 4, processingTime))))
                    && db.flaws == old(db.flaws) + FlawRows(f0, workflowId, MockFlaws, now)
                    && db.suggestions == old(db.suggestions) + SuggestionRows(s0, f0 + 1, MockSuggestions, now)
                    && db.workflows == old(db.workflows)[workflowId - 1 := Ended(w, "analyzed", Analysed(4, 6.0), now)])
    ensures OwnedWorkflow(old(db.Snapshot()), workflowId, userId, NoPermissionAnalyze).Ok? ==>
              GetAnalysisStatus(db.Snapshot(), workflowId, userId).Ok?
              && GetAnalysisStatus(db.Snapshot(), workflowId, userId).value.data.value.status
                 == (if r.Ok? then "analyzed" else "failed")
  {
    var owned := OwnedWorkflow(db.Snapshot(), workflowId, userId, NoPermissionAnalyze);
    if owned.Err? {
      return Err(owned.error);
    }
    WorkflowAtPosition(db.workflows, workflowId);
    r := RunAnalysis(db, workflowId - 1, processingTime, now);
    OwnedAtPosition(db.Snapshot(), workflowId, userId, NoPermissionStatus);
  }

  /** Every suggestion of every flaw, flaw by flaw: the `extend` loop of `get_analysis_results`. */
  function SuggestionsOfFlaws(suggestions: seq<SuggestionRec>, flaws: seq<FlawRec>): seq<SuggestionRec>
    decreases |flaws|
  {
    if flaws == [] then []
    else SuggestionsOfFlaws(suggestions, flaws[..|flaws| - 1]) + SuggestionsOf(suggestions, flaws[|flaws| - 1].id)
  }

  /** The collected suggestions are exactly those attached to one of the flaws. */
  lemma {:induction false} SuggestionsOfFlawsMeaning(suggestions: seq<SuggestionRec>, flaws: seq<FlawRec>)
    ensures forall s :: s in SuggestionsOfFlaws(suggestions, flaws) <==>
              s in suggestions && exists f :: f in flaws && f.id == s.flawId
    decreases |flaws|
  {
    if flaws != [] {
      var init := flaws[..|flaws| - 1];
      SuggestionsOfFlawsMeaning(suggestions, init);
      assert flaws == init + [flaws[|flaws| - 1]];
    }
  }

  /**
   * `GET /analyze/{id}`: 404 or 403 as for every workflow endpoint, 404 when the workflow has
   * no stored flaws, otherwise its flaws, their suggestions and the mean severity weight.
   */
  method GetAnalysisResults(t: Tables, workflowId: int, userId: int)
    returns (r: Result<Response<AnalysisResponse, string>, HttpError>)
    ensures OwnedWorkflow(t, workflowId, userId, NoPermissionResults).Err? ==>
              r == Err(OwnedWorkflow(t, workflowId, userId, NoPermissionResults).error)
    ensures OwnedWorkflow(t, workflowId, userId, NoPermissionResults).Ok? && FlawsOf(t.flaws, workflowId) == [] ==>
              r == Err(NoResults)
    ensures OwnedWorkflow(t, workflowId, userId, NoPermissionResults).Ok? && FlawsOf(t.flaws, workflowId) != [] ==>
              var flaws := FlawsOf(t.flaws, workflowId);
              r == Ok(SuccessResponse(ResultsMessage, Some(AnalysisResponse(
                     workflowId, flaws, SuggestionsOfFlaws(t.suggestions, flaws),
                     MeanWeight(Severities(flaws)), |flaws|, 0.0))))
  {
    var owned := OwnedWorkflow(t, workflowId, userId, NoPermissionResults);
    if owned.Err? {
      return Err(owned.error);
    }
    var flaws := FlawsOf(t.flaws, workflowId);
    var all: seq<SuggestionRec> := [];
    for i := 0 to |flaws|
      invariant all == SuggestionsOfFlaws(t.suggestions, flaws[..i])
    {
      assert flaws[..i + 1][..i] == flaws[..i];
      all := all + SuggestionsOf(t.suggestions, flaws[i].id);
    }
    assert flaws[..|flaws|] == flaws;
    if flaws == [] {
      return Err(NoResults);
    }
    r := Ok(SuccessResponse(ResultsMessage, Some(AnalysisResponse(
           workflowId, flaws, all, MeanWeight(Severities(flaws)), |flaws|, 0.0))));
  }

  lemma {:induction false} FlawsOfAppend(a: seq<FlawRec>, b: seq<FlawRec>, workflowId: int)
    ensures FlawsOf(a + b, workflowId) == FlawsOf(a, workflowId) + FlawsOf(b, workflowId)
    decreases |a|
  {
    if a == [] {
      assert a + b == b;
    } else {
      assert (a + b)[1..] == a[1..] + b;
      FlawsOfAppend(a[1..], b, workflowId);
    }
  }

  lemma {:induction false} FlawsOfOwn(rows: seq<FlawRec>, workflowId: int)
    requires forall i :: 0 <= i < |rows| ==> rows[i].workflowId == workflowId
    ensures FlawsOf(rows, workflowId) == rows
    decreases |rows|
  {
    if rows != [] {
      FlawsOfOwn(rows[1..], workflowId);
    }
  }

  /**
   * After the first analysis of a workflow, reading its results back gives exactly the stored
   * flaws, and the score recomputed from them is the 6 the analysis reported.
   */
  lemma ResultsAfterAnalysis(flaws: seq<FlawRec>, workflowId: int, now: DateTime)
    requires FlawsOf(flaws, workflowId) == []
    ensures var rows := FlawRows(|flaws|, workflowId, MockFlaws, now);
            FlawsOf(flaws + rows, workflowId) == rows && MeanWeight(Severities(rows)) == 6.0
  {
    var rows := FlawRows(|flaws|, workflowId, MockFlaws, now);
    FlawsOfAppend(flaws, rows, workflowId);
    FlawsOfOwn(rows, workflowId);
    assert Severities(rows) == DeclaredSeverities(MockFlaws);
    MockBrutalityIsSix();
  }
}
