/**
 * The upload endpoints (backend/routers/upload.py): a CSV or JSON file becomes a workflow
 * whose `raw_data` is a dict with a list of steps. Reading and decoding the file's bytes is
 * outside the model: an upload carries what the JSON parser and the CSV reader make of its
 * text, or `None` where they fail.
 */
module UploadRouter {
  import opened Wrappers
  import opened Json
  import opened Http
  import opened Text
  import opened Store
  import opened Responses
  import opened Schemas
  import opened Histogram
  import AiService

  const InvalidFileType := HttpError(BadRequest, "Invalid file type. Only CSV and JSON files are supported.")
  /** Every failure after the content-type check, whatever the exception said after the colon. */
  const ProcessingFailed := HttpError(InternalError, "Failed to process file: ")
  const UploadedMessage := "File uploaded successfully"
  const ProcessedMessage := "File uploaded and processed successfully"
  const WorkflowsMessage := "Workflows retrieved successfully"

  /** What `csv.DictReader` reads: the header row and the remaining non-blank rows. */
  datatype CsvTable = CsvTable(header: seq<string>, records: seq<seq<string>>)

  /**
   * An uploaded file: its name (possibly missing), its declared content type, and what its
   * text parses to as JSON and as CSV (`None` when undecodable or unparsable).
   */
  datatype UploadFile = UploadFile(filename: Option<string>, contentType: string, asJson: Option<Json>, asCsv: Option<CsvTable>)

  datatype UploadResponse = UploadResponse(workflowId: int, message: string, parsedData: Json)

  predicate AcceptedContentType(contentType: string) {
    contentType == "text/csv" || contentType == "application/json" || contentType == "text/plain"
  }

  // ---------------------------------------------------------------- steps

  /** `row.get(key, row.get(alt, default))`. */
  function Pick(row: map<string, Json>, key: string, alt: string, default: Json): (r: Json)
    ensures key in row ==> r == row[key]
    ensures key !in row && alt in row ==> r == row[alt]
    ensures key !in row && alt !in row ==> r == default
  {
    if key in row then row[key] else if alt in row then row[alt] else default
  }

  /**
   * The step built from the row or item at position `i`, numbered from 1 (the dict's key
   * order is immaterial here).
   */
  function StepOf(i: nat, row: map<string, Json>): Json {
    JObject(map[
      "description" := Pick(row, "description", "step_description", JStr("")),
      "type" := Pick(row, "type", "step_type", JStr("process")),
      "duration" := Pick(row, "duration", "estimated_time", JStr("")),
      "owner" := Pick(row, "owner", "responsible_person", JStr("")),
      "inputs" := Pick(row, "inputs", "input_data", JStr("")),
      "outputs" := Pick(row, "outputs", "output_data", JStr("")),
      "dependencies" := Pick(row, "dependencies", "depends_on", JStr(""))]
      ["name" := Pick(row, "name", "step_name", JStr("Step " + IntToString(i + 1)))]
      ["raw_data" := JObject(row)]
      ["id" := JInt(i + 1)])
  }

  /** The number and the source row of a step. */
  function StepId(step: Json): int {
    if step.JObject? && "id" in step.fields && step.fields["id"].JInt? then step.fields["id"].i else 0
  }

  function StepRow(step: Json): Json {
    if step.JObject? && "raw_data" in step.fields then step.fields["raw_data"] else JNull
  }

  // ---------------------------------------------------------------- CSV

  /**
   * The dict `DictReader` makes of one record: each header name maps to its cell, or to
   * `None` when the record is short; a repeated name keeps the last cell.
   */
  function RowDict(header: seq<string>, cells: seq<string>): (r: map<string, Json>)
    ensures forall k :: k in r <==> k in header
    decreases |header|
  {
    if header == [] then map[]
    else
      var n := |header| - 1;
      RowDict(header[..n], cells)[header[n] := if n < |cells| then JStr(cells[n]) else JNull]
  }

  function StringList(s: seq<string>): (r: seq<Json>)
    ensures |r| == |s| && forall i :: 0 <= i < |s| ==> r[i] == JStr(s[i])
  {
    seq(|s|, i requires 0 <= i < |s| => JStr(s[i]))
  }

  function CsvSteps(t: CsvTable): (r: seq<Json>)
    ensures |r| == |t.records|
  {
    seq(|t.records|, i requires 0 <= i < |t.records| => StepOf(i, RowDict(t.header, t.records[i])))
  }

  /** `_parse_csv_file`: the columns are the first row's keys, in header order without repeats. */
  function CsvStructure(t: CsvTable): Json {
    JObject(map[
      "format" := JStr("csv"),
      "total_rows" := JInt(|t.records|),
      "columns" := JList(if t.records == [] then [] else StringList(Distinct(t.header))),
      "steps" := JList(CsvSteps(t))])
  }

  /** The loop of `_parse_csv_file` that appends one step per record. */
  method ParseCsvFile(t: CsvTable) returns (r: Json)
    ensures r == CsvStructure(t)
  {
    var steps: seq<Json> := [];
    for i := 0 to |t.records|
      invariant steps == CsvSteps(t)[..i]
    {
      steps := steps + [StepOf(i, RowDict(t.header, t.records[i]))];
    }
    assert steps == CsvSteps(t);
    r := JObject(map[
      "format" := JStr("csv"),
      "total_rows" := JInt(|t.records|),
      "columns" := JList(if t.records == [] then [] else StringList(Distinct(t.header))),
      "steps" := JList(steps)]);
  }

  /**
   * One step per record, numbered 1, 2, ... in file order, each keeping its record and
   * taking its name from the `name` column, else `step_name`, else "Step <n>".
   */
  lemma CsvStepsMeaning(t: CsvTable)
    ensures |CsvSteps(t)| == |t.records|
    ensures forall i :: 0 <= i < |t.records| ==>
              StepId(CsvSteps(t)[i]) == i + 1 && StepRow(CsvSteps(t)[i]) == JObject(RowDict(t.header, t.records[i]))
    ensures forall i :: 0 <= i < |t.records| && "name" !in t.header && "step_name" !in t.header ==>
              CsvSteps(t)[i].fields["name"] == JStr("Step " + IntToString(i + 1))
  {
  }

  // ---------------------------------------------------------------- JSON

  /** The steps made of the dict items of a list; other items are skipped but keep their number. */
  function JsonSteps(items: seq<Json>): seq<Json>
    decreases |items|
  {
    if items == [] then []
    else
      var n := |items| - 1;
      JsonSteps(items[..n]) + (if items[n].JObject? then [StepOf(n, items[n].fields)] else [])
  }

  /** `_parse_json_file` after a successful parse. */
  function JsonStructure(v: Json): Json {
    if HasKey(v, "steps") then v
    else if v.JList? then
      JObject(map["format" := JStr("json"), "total_steps" := JInt(|v.items|), "steps" := JList(JsonSteps(v.items))])
    else if v.JObject? then
      JObject(map["format" := JStr("json"), "total_steps" := JInt(1), "steps" := JList([v])])
    else
      JObject(map["format" := JStr("json"), "raw_data" := v])
  }

  method ParseJsonFile(v: Json) returns (r: Json)
    ensures r == JsonStructure(v)
  {
    if HasKey(v, "steps") {
      return v;
    }
    if v.JList? {
      var steps: seq<Json> := [];
      for i := 0 to |v.items|
        invariant steps == JsonSteps(v.items[..i])
      {
        assert v.items[..i + 1][..i] == v.items[..i];
        if v.items[i].JObject? {
          steps := steps + [StepOf(i, v.items[i].fields)];
        }
      }
      assert v.items[..|v.items|] == v.items;
      return JObject(map["format" := JStr("json"), "total_steps" := JInt(|v.items|), "steps" := JList(steps)]);
    }
    if v.JObject? {
      return JObject(map["format" := JStr("json"), "total_steps" := JInt(1), "steps" := JList([v])]);
    }
    r := JObject(map["format" := JStr("json"), "raw_data" := v]);
  }

  /**
   * The steps of a list are exactly its dict items, in order: step numbers increase, each is
   * the item's position plus one, and every dict item has a step; `total_steps` counts the
   * skipped items too.
   */
  lemma {:induction false} JsonStepsMeaning(items: seq<Json>)
    ensures |JsonSteps(items)| <= |items|
    ensures forall s :: s in JsonSteps(items) ==>
              s.JObject? && 1 <= StepId(s) <= |items| && items[StepId(s) - 1].JObject?
              && StepRow(s) == items[StepId(s) - 1]
    ensures forall i, j :: 0 <= i < j < |JsonSteps(items)| ==> StepId(JsonSteps(items)[i]) < StepId(JsonSteps(items)[j])
    ensures forall k :: 0 <= k < |items| && items[k].JObject? ==> exists s :: s in JsonSteps(items) && StepId(s) == k + 1
  {
    JsonStepsShorter(items);
    JsonStepsFromItems(items);
    JsonStepsIncreasing(items);
    JsonStepsComplete(items);
  }

  /** What a step records: its number and the row it was built from. */
  lemma StepOfFacts(i: nat, row: map<string, Json>)
    ensures StepOf(i, row).JObject? && StepId(StepOf(i, row)) == i + 1 && StepRow(StepOf(i, row)) == JObject(row)
  {
  }

  lemma {:induction false} JsonStepsShorter(items: seq<Json>)
    ensures |JsonSteps(items)| <= |items|
    decreases |items|
  {
    if items != [] {
      JsonStepsShorter(items[..|items| - 1]);
    }
  }

  lemma {:induction false} JsonStepsFromItems(items: seq<Json>)
    ensures forall s :: s in JsonSteps(items) ==>
              s.JObject? && 1 <= StepId(s) <= |items| && items[StepId(s) - 1].JObject?
              && StepRow(s) == items[StepId(s) - 1]
    decreases |items|
  {
    if items != [] {
      var n := |items| - 1;
      var init := items[..n];
      JsonStepsFromItems(init);
      forall s | s in JsonSteps(items)
        ensures s.JObject? && 1 <= StepId(s) <= |items| && items[StepId(s) - 1].JObject?
                && StepRow(s) == items[StepId(s) - 1]
      {
        if s in JsonSteps(init) {
          assert items[StepId(s) - 1] == init[StepId(s) - 1];
        } else {
          assert items[n].JObject? && s == StepOf(n, items[n].fields);
          StepOfFacts(n, items[n].fields);
        }
      }
    }
  }

  lemma {:induction false} JsonStepsIncreasing(items: seq<Json>)
    ensures forall i, j :: 0 <= i < j < |JsonSteps(items)| ==> StepId(JsonSteps(items)[i]) < StepId(JsonSteps(items)[j])
    decreases |items|
  {
    if items != [] {
      var n := |items| - 1;
      var init := items[..n];
      var before := JsonSteps(init);
      JsonStepsIncreasing(init);
      if items[n].JObject? {
        JsonStepsFromItems(init);
        StepOfFacts(n, items[n].fields);
        var all := JsonSteps(items);
        assert all == before + [StepOf(n, items[n].fields)];
        forall i, j | 0 <= i < j < |all|
          ensures StepId(all[i]) < StepId(all[j])
        {
          assert all[i] == before[i];
          if j < |before| {
            assert all[j] == before[j];
          } else {
            assert before[i] in before;
          }
        }
      } else {
        assert JsonSteps(items) == before;
      }
    }
  }

  lemma {:induction false} JsonStepsComplete(items: seq<Json>)
    ensures forall k :: 0 <= k < |items| && items[k].JObject? ==> exists s :: s in JsonSteps(items) && StepId(s) == k + 1
    decreases |items|
  {
    if items != [] {
      var n := |items| - 1;
      var init := items[..n];
      JsonStepsComplete(init);
      var before := JsonSteps(init);
      var all := JsonSteps(items);
      assert forall s :: s in before ==> s in all;
      forall k | 0 <= k < |items| && items[k].JObject?
        ensures exists s :: s in all && StepId(s) == k + 1
      {
        if k < n {
          assert init[k] == items[k];
          var s :| s in before && StepId(s) == k + 1;
          assert s in all;
        } else {
          StepOfFacts(n, items[n].fields);
          assert StepOf(n, items[n].fields) in all;
        }
      }
    }
  }

  // ---------------------------------------------------------------- dispatch

  datatype Parsed = Parsed(fileType: string, data: Json)

  function CsvParsed(file: UploadFile): Option<Parsed> {
    if file.asCsv.Some? then Some(Parsed("csv", CsvStructure(file.asCsv.value))) else None
  }

  function JsonParsed(file: UploadFile): Option<Parsed> {
    if file.asJson.Some? then Some(Parsed("json", JsonStructure(file.asJson.value))) else None
  }

  /**
   * The parser chosen by the file name, then by the content type; with neither, JSON is tried
   * first and CSV only when JSON fails. A missing file name fails.
   */
  function ParseUpload(file: UploadFile): Option<Parsed> {
    if file.filename.None? then None
    else if EndsWith(file.filename.value, ".csv") || file.contentType == "text/csv" then CsvParsed(file)
    else if EndsWith(file.filename.value, ".json") || file.contentType == "application/json" then JsonParsed(file)
    else if file.asJson.Some? then JsonParsed(file)
    else CsvParsed(file)
  }

  /**
   * Whatever parses is a dict tagged "csv" or "json", so `WorkflowCreate` rejects an upload
   * only for its name.
   */
  lemma ParsedIsWorkflowData(file: UploadFile, name: string)
    requires ParseUpload(file).Some?
    ensures ParseUpload(file).value.data.JObject?
    ensures ValidWorkflowCreate(name, ParseUpload(file).value.data, ParseUpload(file).value.fileType) <==> 1 <= |name| <= 255
  {
  }

  /**
   * A converted upload can be analysed unless it is a single JSON dict with a key that
   * `add_node` refuses: CSV records and JSON list items become steps with a fixed set of keys,
   * and a scalar becomes no step at all. A CSV file gives one graph node per record. A dict
   * that already has "steps" is stored as it came, so it can be analysed exactly when its own
   * steps can.
   */
  lemma ConvertedIsAnalysable(file: UploadFile)
    requires ParseUpload(file).Some?
    ensures ParseUpload(file).value.fileType == "json" && HasKey(file.asJson.value, "steps") ==>
              ParseUpload(file).value.data == file.asJson.value
    ensures !(ParseUpload(file).value.fileType == "json" && HasKey(file.asJson.value, "steps")) ==>
              (AiService.GraphBuildable(ParseUpload(file).value.data) <==>
                 !(ParseUpload(file).value.fileType == "json" && file.asJson.value.JObject?
                   && !AiService.NodeAttributes(file.asJson.value)))
    ensures ParseUpload(file).value.fileType == "csv" ==>
              AiService.StepCount(ParseUpload(file).value.data) == |file.asCsv.value.records|
  {
    var p := ParseUpload(file).value;
    if p.fileType == "json" {
      var v := file.asJson.value;
      assert p.data == JsonStructure(v);
      if HasKey(v, "steps") {
      } else if v.JList? {
        JsonStepsAreNodes(v.items);
        assert p.data.fields["steps"] == JList(JsonSteps(v.items));
      } else if v.JObject? {
        assert p.data.fields["steps"] == JList([v]);
        assert AiService.GraphBuildable(p.data) <==> AiService.NodeAttributes([v][0]);
      } else {
        assert "steps" !in p.data.fields;
      }
    } else {
      var t := file.asCsv.value;
      forall i | 0 <= i < |CsvSteps(t)|
        ensures AiService.NodeAttributes(CsvSteps(t)[i])
      {
        StepIsNode(i, RowDict(t.header, t.records[i]));
      }
    }
  }

  /** A built step has only its fixed keys, none of which `add_node` refuses. */
  lemma StepIsNode(i: nat, row: map<string, Json>)
    ensures AiService.NodeAttributes(StepOf(i, row))
  {
  }

  lemma {:induction false} JsonStepsAreNodes(items: seq<Json>)
    ensures forall k :: 0 <= k < |JsonSteps(items)| ==> AiService.NodeAttributes(JsonSteps(items)[k])
    decreases |items|
  {
    if items != [] {
      var n := |items| - 1;
      JsonStepsAreNodes(items[..n]);
      if items[n].JObject? {
        StepIsNode(n, items[n].fields);
      }
    }
  }

  /** A JSON upload `{"self": 1}` is wrapped as one step, and that step cannot be made a graph node. */
  lemma SelfKeyNotAnalysable()
    ensures var file := UploadFile(Some("w.json"), "application/json", Some(JObject(map["self" := JInt(1)])), None);
            ParseUpload(file).Some? && !AiService.GraphBuildable(ParseUpload(file).value.data)
  {
    var file := UploadFile(Some("w.json"), "application/json", Some(JObject(map["self" := JInt(1)])), None);
    assert EndsWith("w.json", ".json");
    ConvertedIsAnalysable(file);
  }

  /** The dispatch inside the `try` of `upload_workflow_file`. */
  method ParseUploadFile(file: UploadFile) returns (r: Option<Parsed>)
    ensures r == ParseUpload(file)
  {
    if file.filename.None? {
      return None;
    }
    var filename := file.filename.value;
    if EndsWith(filename, ".csv") || file.contentType == "text/csv" {
      if file.asCsv.None? {
        return None;
      }
      var data := ParseCsvFile(file.asCsv.value);
      return Some(Parsed("csv", data));
    } else if EndsWith(filename, ".json") || file.contentType == "application/json" {
      if file.asJson.None? {
        return None;
      }
      var data := ParseJsonFile(file.asJson.value);
      return Some(Parsed("json", data));
    } else if file.asJson.Some? {
      var data := ParseJsonFile(file.asJson.value);
      return Some(Parsed("json", data));
    } else {
      if file.asCsv.None? {
        return None;
      }
      var data := ParseCsvFile(file.asCsv.value);
      return Some(Parsed("csv", data));
    }
  }

  // ---------------------------------------------------------------- endpoints

  /**
   * `POST /upload/`: a wrong content type is a 400 before anything is read; any later failure,
   * including a parse error or an invalid name, is a 500 and stores nothing; otherwise the
   * workflow is created as "uploaded" with the converted data.
   */
  method UploadWorkflowFile(db: Database, file: UploadFile, name: string, userId: int, now: DateTime)
    returns (r: Result<Response<UploadResponse, string>, HttpError>)
    requires db.Valid()
    modifies db
    ensures db.Valid()
    ensures !AcceptedContentType(file.contentType) ==> r == Err(InvalidFileType)
    ensures AcceptedContentType(file.contentType) && ParseUpload(file).None? ==> r == Err(ProcessingFailed)
    ensures AcceptedContentType(file.contentType) && ParseUpload(file).Some?
            && !ValidWorkflowCreate(name, ParseUpload(file).value.data, ParseUpload(file).value.fileType) ==>
              r == Err(ProcessingFailed)
    ensures r.Err? ==> unchanged(db)
    ensures r.Ok? ==>
              AcceptedContentType(file.contentType) && ParseUpload(file).Some?
              && var p := ParseUpload(file).value;
                 var id := |old(db.workflows)| + 1;
                 ValidWorkflowCreate(name, p.data, p.fileType)
                 && db.workflows == old(db.workflows) + [WorkflowRec(id, userId, name, p.data, Unprocessed, p.fileType, "uploaded", now, now)]
                 && db.flaws == old(db.flaws) && db.suggestions == old(db.suggestions)
                 && r.value == SuccessResponse(UploadedMessage, Some(UploadResponse(id, ProcessedMessage, p.data)))
  {
    if !AcceptedContentType(file.contentType) {
      return Err(InvalidFileType);
    }
    var parsed := ParseUploadFile(file);
    if parsed.None? {
      return Err(ProcessingFailed);
    }
    var data, fileType := parsed.value.data, parsed.value.fileType;
    if !ValidWorkflowCreate(name, data, fileType) {
      return Err(ProcessingFailed);
    }
    var workflow := db.CreateWorkflow(userId, name, data, fileType, now);
    r := Ok(SuccessResponse(UploadedMessage, Some(UploadResponse(workflow.id, ProcessedMessage, data))));
  }

  datatype WorkflowListing = WorkflowListing(
    id: int, name: string, fileType: string, status: string, createdAt: DateTime, updatedAt: DateTime)

  function Listing(w: WorkflowRec): WorkflowListing {
    WorkflowListing(w.id, w.name, w.fileType, w.status, w.createdAt, w.updatedAt)
  }

  /** `GET /upload/workflows`: a listing of exactly the caller's workflows, one entry each. */
  function GetUserWorkflows(t: Tables, userId: int): (r: Response<seq<WorkflowListing>, string>)
    ensures r.success && WellFormed(r) && r.message == WorkflowsMessage && r.data.Some?
    ensures |r.data.value| == |WorkflowsOf(t.workflows, userId)|
    ensures forall e :: e in r.data.value <==> exists w :: w in t.workflows && w.userId == userId && e == Listing(w)
  {
    var workflows := WorkflowsOf(t.workflows, userId);
    var listing := seq(|workflows|, i requires 0 <= i < |workflows| => Listing(workflows[i]));
    assert forall w :: w in workflows ==> Listing(w) in listing by {
      forall w | w in workflows
        ensures Listing(w) in listing
      {
        var i :| 0 <= i < |workflows| && workflows[i] == w;
        assert listing[i] == Listing(w);
      }
    }
    SuccessResponse(WorkflowsMessage, Some(listing))
  }
}
