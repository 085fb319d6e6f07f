/**
 * The request-body check of backend/src/middleware/validation.ts. Parsing against a schema is
 * foreign (zod), so its outcome is the input: success, a schema error with its issues, or
 * some other exception. A schema error becomes one 400 whose details list one message per
 * issue: the issue's path joined with ".", then ": ", then the issue's own message.
 */
module Validation {
  import opened Wrappers
  import opened Text
  import opened ApiErrors

  /** One step of an issue path: an object key or an array index. */
  datatype Segment = Key(key: string) | Index(index: nat)

  datatype Issue = Issue(path: seq<Segment>, message: string)

  /** What `schema.parse(req.body)` did. */
  datatype ParseOutcome = Parsed | SchemaError(issues: seq<Issue>) | OtherException

  /** How `join` renders a path step: keys as they are, indices in decimal. */
  function SegmentText(s: Segment): string {
    match s
    case Key(k) => k
    case Index(n) => NatToDecimal(n)
  }

  function PathTexts(path: seq<Segment>): (r: seq<string>)
    ensures |r| == |path|
    ensures forall k :: 0 <= k < |path| ==> r[k] == SegmentText(path[k])
  {
    if path == [] then [] else [SegmentText(path[0])] + PathTexts(path[1..])
  }

  /** `${err.path.join(".")}: ${err.message}`. */
  function FormatIssue(issue: Issue): string {
    Join(PathTexts(issue.path), '.') + ": " + issue.message
  }

  /** `error.errors.map(...)`: one message per issue, in issue order. */
  function IssueMessages(issues: seq<Issue>): (r: seq<string>)
    ensures |r| == |issues|
    ensures forall k :: 0 <= k < |issues| ==> r[k] == FormatIssue(issues[k])
  {
    if issues == [] then [] else [FormatIssue(issues[0])] + IssueMessages(issues[1..])
  }

  /** `validate(schema)`: what it hands to `next`. */
  function Validate(outcome: ParseOutcome): (n: Next)
    ensures outcome.Parsed? <==> n == Continue
    ensures n.Abort? ==> n.error.statusCode == 400
    ensures outcome.SchemaError? ==>
      n == Abort(NewApiError(400, "Validation failed", Some(IssueMessages(outcome.issues))))
    ensures outcome.OtherException? ==> n == Abort(NewApiError(400, "Invalid request data", None))
  {
    match outcome
    case Parsed => Continue
    case SchemaError(issues) => Abort(NewApiError(400, "Validation failed", Some(IssueMessages(issues))))
    case OtherException => Abort(NewApiError(400, "Invalid request data", None))
  }

  /**
   * The path part of a message can be read back: splitting it at "." gives one text per path
   * step, and an index step's text reads back as that index. (Keys that contain "." are
   * the one ambiguity of the format.)
   */
  lemma {:induction false} PathTextRoundTrip(path: seq<Segment>)
    requires |path| >= 1
    requires forall k :: 0 <= k < |path| && path[k].Key? ==> '.' !in path[k].key
    ensures Split(Join(PathTexts(path), '.'), '.') == PathTexts(path)
    ensures forall k :: 0 <= k < |path| && path[k].Index? ==>
      var text := Split(Join(PathTexts(path), '.'), '.')[k];
      (forall c :: 0 <= c < |text| ==> IsDigit(text[c])) && DecimalValue(text) == path[k].index
  {
    var texts := PathTexts(path);
    forall k | 0 <= k < |texts| ensures '.' !in texts[k] {
      if path[k].Index? {
        var d := NatToDecimal(path[k].index);
        assert forall c :: 0 <= c < |d| ==> IsDigit(d[c]);
      }
    }
    SplitJoin(texts, '.');
    forall k | 0 <= k < |path| && path[k].Index? ensures DecimalValue(texts[k]) == path[k].index {
      DecimalRoundTrip(path[k].index);
    }
  }
}
