/**
 * The field constraints of the request models in backend/models/schemas.py. A model whose
 * constraints fail raises a validation error at construction time; the routers turn that
 * into their error path.
 */
module Schemas {
  import opened Json
  import Severity
  import Text

  const DefaultImpactScore := 0.0
  const DefaultPriority := 1

  /** `UserCreate`: name of 2 to 100 characters, password of at least 6 (the e-mail check is not modelled). */
  predicate ValidUserCreate(name: string, password: string) {
    2 <= |name| <= 100 && |password| >= 6
  }

  /** `WorkflowCreate`: name of 1 to 255 characters, a dict as raw data, file type exactly "csv" or "json". */
  predicate ValidWorkflowCreate(name: string, rawData: Json, fileType: string) {
    1 <= |name| <= 255 && rawData.JObject? && (fileType == "csv" || fileType == "json")
  }

  /** `FlawCreate`: one of the four severities and an impact score between 0 and 10. */
  predicate ValidFlawCreate(severity: string, impactScore: real) {
    Severity.IsKnown(severity) && 0.0 <= impactScore <= 10.0
  }

  predicate IsLevel(s: string) {
    s == "low" || s == "medium" || s == "high"
  }

  /** `FixSuggestionCreate`: effort and impact are low, medium or high; priority between 1 and 5. */
  predicate ValidSuggestionCreate(effort: string, impact: string, priority: int) {
    IsLevel(effort) && IsLevel(impact) && 1 <= priority <= 5
  }

  /** `ReportCreate`: brutality score between 0 and 10, improvement percentage between 0 and 100. */
  predicate ValidReportCreate(brutalityScore: real, improvementPercentage: real) {
    0.0 <= brutalityScore <= 10.0 && 0.0 <= improvementPercentage <= 100.0
  }
  /**
   * The `pattern=` constraints are anchored alternations: a field passes exactly when it is
   * one of the listed words, compared case-sensitively.
   */
  lemma PatternFields(s: string)
    ensures IsLevel(s) <==> s in ["low", "medium", "high"]
    ensures Severity.IsKnown(s) <==> s in ["low", "medium", "high", "critical"]
    ensures IsLevel(s) ==> Severity.IsKnown(s)
  {
  }

  /**
   * The patterns accept lower-case spellings only: a string that lowering changes is no level,
   * no severity and no file type. "critical" is the one severity that is not a level.
   */
  lemma PatternsAreCaseSensitive(s: string, name: string, rawData: Json)
    ensures Text.Lower(s) != s ==> !IsLevel(s) && !Severity.IsKnown(s) && !ValidWorkflowCreate(name, rawData, s)
    ensures Severity.IsKnown(s) && !IsLevel(s) <==> s == "critical"
  {
    if IsLevel(s) || Severity.IsKnown(s) || s == "csv" || s == "json" {
      Text.LowerOfLowerCase(s);
    }
  }

  /**
   * The length bounds over all inputs: a longer password never invalidates a user, a valid
   * user name is also a valid workflow name, and only a dict is accepted as raw data.
   */
  lemma LengthBounds(name: string, password: string, extra: string, rawData: Json, fileType: string)
    ensures ValidUserCreate(name, password) ==> ValidUserCreate(name, password + extra)
    ensures ValidUserCreate(name, password) ==> ValidWorkflowCreate(name, JObject(map[]), "csv")
    ensures ValidWorkflowCreate(name, rawData, fileType) ==> rawData.JObject? && 1 <= |name| <= 255
  {
  }

  /** The defaults of the optional numeric fields satisfy their own bounds. */
  lemma DefaultsValid(severity: string, score: real, priority: int)
    requires Severity.IsKnown(severity)
    ensures ValidFlawCreate(severity, DefaultImpactScore)
    ensures ValidSuggestionCreate("low", "high", DefaultPriority)
    ensures ValidReportCreate(0.0, 0.0)
    ensures !(0.0 <= score <= 10.0) ==> !ValidFlawCreate(severity, score) && !ValidReportCreate(score, 0.0)
    ensures !(1 <= priority <= 5) ==> !ValidSuggestionCreate("low", "high", priority)
  {
  }
}
