/**
 * The database tables the routers read and write (backend/db/models.py), with the queries of
 * backend/services/workflow_service.py. Rows keep their insertion order; a query returns the
 * matching rows in that order.
 */
module Store {
  import opened Wrappers
  import opened Json
  import opened Http

  /** A timestamp: the calendar day and the time within it, ordered lexicographically. */
  datatype DateTime = DateTime(day: int, time: int)

  /** What an analysis left in `processed_data`; `{}` until the first successful analysis. */
  datatype Processed = Unprocessed | Analysed(flawsCount: nat, brutalityScore: real)

  datatype WorkflowRec = WorkflowRec(
    id: int, userId: int, name: string, rawData: Json, processedData: Processed,
    fileType: string, status: string, createdAt: DateTime, updatedAt: DateTime)

  datatype FlawRec = FlawRec(
    id: int, workflowId: int, flawType: string, severity: string, title: string,
    description: string, location: Option<string>, impactScore: real, createdAt: DateTime)

  datatype SuggestionRec = SuggestionRec(
    id: int, flawId: int, title: string, description: string, effort: string, impact: string,
    priority: int, estimatedTime: Option<string>, createdAt: DateTime)

  /** A read-only view of the three tables. */
  datatype Tables = Tables(workflows: seq<WorkflowRec>, flaws: seq<FlawRec>, suggestions: seq<SuggestionRec>)

  const WorkflowNotFound := HttpError(NotFound, "Workflow not found")

  /** `get_workflow`: the first workflow with this id, or 404. */
  function GetWorkflow(workflows: seq<WorkflowRec>, id: int): (r: Result<WorkflowRec, HttpError>)
    ensures r.Ok? <==> exists i :: 0 <= i < |workflows| && workflows[i].id == id
    ensures r.Ok? ==> r.value in workflows && r.value.id == id
    ensures r.Err? ==> r.error == WorkflowNotFound
    decreases |workflows|
  {
    if workflows == [] then Err(WorkflowNotFound)
    else if workflows[0].id == id then Ok(workflows[0])
    else
      var r := GetWorkflow(workflows[1..], id);
      assert forall i :: 1 <= i < |workflows| ==> workflows[i] == workflows[1..][i - 1];
      r
  }

  /** `db.query(Flaw).filter(Flaw.id == id).first()`. */
  function FindFlaw(flaws: seq<FlawRec>, id: int): (r: Option<FlawRec>)
    ensures r.Some? <==> exists i :: 0 <= i < |flaws| && flaws[i].id == id
    ensures r.Some? ==> r.value in flaws && r.value.id == id
    decreases |flaws|
  {
    if flaws == [] then None
    else if flaws[0].id == id then Some(flaws[0])
    else
      var r := FindFlaw(flaws[1..], id);
      assert forall i :: 1 <= i < |flaws| ==> flaws[i] == flaws[1..][i - 1];
      r
  }

  /** `list_workflows_by_user`. */
  function WorkflowsOf(workflows: seq<WorkflowRec>, userId: int): (r: seq<WorkflowRec>)
    ensures forall w :: w in r <==> w in workflows && w.userId == userId
    decreases |workflows|
  {
    if workflows == [] then []
    else (if workflows[0].userId == userId then [workflows[0]] else []) + WorkflowsOf(workflows[1..], userId)
  }

  /** `list_flaws_by_workflow`. */
  function FlawsOf(flaws: seq<FlawRec>, workflowId: int): (r: seq<FlawRec>)
    ensures forall f :: f in r <==> f in flaws && f.workflowId == workflowId
    decreases |flaws|
  {
    if flaws == [] then []
    else (if flaws[0].workflowId == workflowId then [flaws[0]] else []) + FlawsOf(flaws[1..], workflowId)
  }

  /** `list_fix_suggestions_by_flaw`. */
  function SuggestionsOf(suggestions: seq<SuggestionRec>, flawId: int): (r: seq<SuggestionRec>)
    ensures forall s :: s in r <==> s in suggestions && s.flawId == flawId
    decreases |suggestions|
  {
    if suggestions == [] then []
    else (if suggestions[0].flawId == flawId then [suggestions[0]] else []) + SuggestionsOf(suggestions[1..], flawId)
  }

  /** `Flaw.workflow_id.in_(ids)`: the flaws of any of the given workflows, in table order. */
  function FlawsOfAny(flaws: seq<FlawRec>, workflowIds: set<int>): (r: seq<FlawRec>)
    ensures forall f :: f in r <==> f in flaws && f.workflowId in workflowIds
    decreases |flaws|
  {
    if flaws == [] then []
    else (if flaws[0].workflowId in workflowIds then [flaws[0]] else []) + FlawsOfAny(flaws[1..], workflowIds)
  }

  function Ids(workflows: seq<WorkflowRec>): (r: set<int>)
    ensures forall id :: id in r <==> exists w :: w in workflows && w.id == id
  {
    set w | w in workflows :: w.id
  }

  function Severities(flaws: seq<FlawRec>): (r: seq<string>)
    ensures |r| == |flaws| && forall i :: 0 <= i < |flaws| ==> r[i] == flaws[i].severity
  {
    seq(|flaws|, i requires 0 <= i < |flaws| => flaws[i].severity)
  }

  /**
   * The check every workflow endpoint starts with: the workflow when it exists and belongs to
   * the user; 404 when it does not exist, the endpoint's own 403 when it is someone else's.
   */
  function OwnedWorkflow(t: Tables, workflowId: int, userId: int, denied: HttpError): (r: Result<WorkflowRec, HttpError>)
    ensures GetWorkflow(t.workflows, workflowId).Err? ==> r == Err(WorkflowNotFound)
    ensures GetWorkflow(t.workflows, workflowId).Ok? ==>
              r == if GetWorkflow(t.workflows, workflowId).value.userId == userId
                   then GetWorkflow(t.workflows, workflowId) else Err(denied)
    ensures r.Ok? ==> r.value in t.workflows && r.value.id == workflowId && r.value.userId == userId
  {
    match GetWorkflow(t.workflows, workflowId)
    case Err(e) => Err(e)
    case Ok(w) => if w.userId != userId then Err(denied) else Ok(w)
  }

  /** With auto-increment keys, the owner of the workflow at position `id - 1` passes the check. */
  lemma OwnedAtPosition(t: Tables, id: int, userId: int, denied: HttpError)
    requires KeyedByPosition(t.workflows, (w: WorkflowRec) => w.id)
    requires 1 <= id <= |t.workflows| && t.workflows[id - 1].userId == userId
    ensures OwnedWorkflow(t, id, userId, denied) == Ok(t.workflows[id - 1])
  {
    assert t.workflows[id - 1].id == id;
    WorkflowAtPosition(t.workflows, id);
  }

  /** With auto-increment keys, the workflow with id `id` sits at position `id - 1`. */
  lemma WorkflowAtPosition(workflows: seq<WorkflowRec>, id: int)
    requires KeyedByPosition(workflows, (w: WorkflowRec) => w.id)
    requires GetWorkflow(workflows, id).Ok?
    ensures 1 <= id <= |workflows| && workflows[id - 1] == GetWorkflow(workflows, id).value
  {
    var i :| 0 <= i < |workflows| && workflows[i].id == id;
    assert GetWorkflow(workflows, id).value in workflows;
  }

  /** Auto-increment keys: the row at position `i` has id `i + 1`. */
  predicate KeyedByPosition<T>(rows: seq<T>, id: T -> int) {
    forall i :: 0 <= i < |rows| ==> id(rows[i]) == i + 1
  }

  /**
   * The session's view of the database. Rows are never deleted, so auto-increment keys give
   * each row its position plus one.
   */
  class Database {
    var workflows: seq<WorkflowRec>
    var flaws: seq<FlawRec>
    var suggestions: seq<SuggestionRec>

    ghost predicate Valid()
      reads this
    {
      KeyedByPosition(workflows, (w: WorkflowRec) => w.id)
      && KeyedByPosition(flaws, (f: FlawRec) => f.id)
      && KeyedByPosition(suggestions, (s: SuggestionRec) => s.id)
    }

    function Snapshot(): Tables
      reads this
    {
      Tables(workflows, flaws, suggestions)
    }

    constructor ()
      ensures Valid()
      ensures workflows == [] && flaws == [] && suggestions == []
    {
      workflows, flaws, suggestions := [], [], [];
    }

    /** `create_workflow`: status "uploaded", empty `processed_data`, both timestamps `now`. */
    method CreateWorkflow(userId: int, name: string, rawData: Json, fileType: string, now: DateTime)
      returns (w: WorkflowRec)
      requires Valid()
      modifies this
      ensures Valid()
      ensures w == WorkflowRec(|old(workflows)| + 1, userId, name, rawData, Unprocessed, fileType, "uploaded", now, now)
      ensures workflows == old(workflows) + [w]
      ensures flaws == old(flaws) && suggestions == old(suggestions)
    {
      w := WorkflowRec(|workflows| + 1, userId, name, rawData, Unprocessed, fileType, "uploaded", now, now);
      workflows := workflows + [w];
    }

    /** `create_flaw`. */
    method CreateFlaw(workflowId: int, flawType: string, severity: string, title: string, description: string,
                      location: Option<string>, impactScore: real, now: DateTime)
      returns (f: FlawRec)
      requires Valid()
      modifies this
      ensures Valid()
      ensures f == FlawRec(|old(flaws)| + 1, workflowId, flawType, severity, title, description, location, impactScore, now)
      ensures flaws == old(flaws) + [f]
      ensures workflows == old(workflows) && suggestions == old(suggestions)
    {
      f := FlawRec(|flaws| + 1, workflowId, flawType, severity, title, description, location, impactScore, now);
      flaws := flaws + [f];
    }

    /** `create_fix_suggestion`. */
    method CreateSuggestion(flawId: int, title: string, description: string, effort: string, impact: string,
                            priority: int, estimatedTime: Option<string>, now: DateTime)
      returns (s: SuggestionRec)
      requires Valid()
      modifies this
      ensures Valid()
      ensures s == SuggestionRec(|old(suggestions)| + 1, flawId, title, description, effort, impact, priority, estimatedTime, now)
      ensures suggestions == old(suggestions) + [s]
      ensures workflows == old(workflows) && flaws == old(flaws)
    {
      s := SuggestionRec(|suggestions| + 1, flawId, title, description, effort, impact, priority, estimatedTime, now);
      suggestions := suggestions + [s];
    }

    /** Assigning `workflow.status` (and `processed_data`) and committing; `updated_at` becomes `now`. */
    method UpdateWorkflow(index: nat, status: string, processed: Processed, now: DateTime)
      requires Valid() && index < |workflows|
      modifies this
      ensures Valid()
      ensures workflows == old(workflows)[index := old(workflows)[index].(status := status, processedData := processed, updatedAt := now)]
      ensures flaws == old(flaws) && suggestions == old(suggestions)
    {
      workflows := workflows[index := workflows[index].(status := status, processedData := processed, updatedAt := now)];
    }
  }
}
