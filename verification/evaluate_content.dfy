/** The evaluate_content skill: a stateless policy that classifies one piece
    of content into exactly one of three verdicts. The judging mechanism is
    external and modelled as the `judge` function from (text, platform) to a
    judgment, or to nothing when the judge cannot be reached. */
module EvaluateContent {
  import opened Wrappers
  import opened Validation

  /** The closed verdict set; a decision can hold no other value. */
  datatype Verdict = Approve | Review | Reject

  const VerdictNames: set<string> := {"APPROVE", "REVIEW", "REJECT"}

  /** The wire spelling of a verdict; parsing it gives the verdict back. */
  function VerdictName(v: Verdict): (s: string)
    ensures s in VerdictNames
    ensures ParseVerdict(s) == Some(v)
  {
    match v
    case Approve => "APPROVE"
    case Review => "REVIEW"
    case Reject => "REJECT"
  }

  /** Reads a verdict from its wire spelling; only the three spellings are
      accepted. */
  function ParseVerdict(s: string): (r: Option<Verdict>)
    ensures r.Some? <==> s in VerdictNames
  {
    match s
    case "APPROVE" => Some(Approve)
    case "REVIEW" => Some(Review)
    case "REJECT" => Some(Reject)
    case _ => None
  }

  /** Printing a parsed verdict gives back the spelling it was read from. */
  lemma ParseVerdictInverse(s: string)
    requires ParseVerdict(s).Some?
    ensures VerdictName(ParseVerdict(s).value) == s
  {
  }

  /** The outcome of evaluating one content item, which it names by id. */
  datatype JudgeDecision = JudgeDecision(contentId: string, verdict: Verdict)

  /** The JudgeDecision constructor from a verdict spelling: it accepts
      exactly the three spellings and keeps the content id. */
  function MakeDecision(contentId: string, verdict: string): (r: Result<JudgeDecision, ValidationError>)
    ensures r.Success? <==> verdict in VerdictNames
    ensures r.Success? ==> r.value.contentId == contentId && VerdictName(r.value.verdict) == verdict
    ensures r.Failure? ==> r.error.issues == [UnknownVerdict(verdict)]
  {
    match ParseVerdict(verdict)
    case None => Failure(ValidationError([UnknownVerdict(verdict)]))
    case Some(v) =>
      ParseVerdictInverse(verdict);
      Success(JudgeDecision(contentId, v))
  }

  /** What the external judge reports: a confident verdict, or no confident
      judgment at all. */
  datatype Judgment = Confident(verdict: Verdict) | Uncertain

  datatype EvaluationError = JudgeUnavailable

  /** evaluate(content_id, text, platform). Empty text is not sent to the
      judge and is held for review. Otherwise a confident judgment is adopted,
      an uncertain one resolves to REVIEW, and only an unreachable judge is an
      error. So the only failure is infrastructure failure, APPROVE and REJECT
      are issued only on the judge's confident word, and the decision names
      the evaluated content. */
  function Evaluate(
    contentId: string,
    text: string,
    platform: string,
    judge: (string, string) -> Option<Judgment>): (r: Result<JudgeDecision, EvaluationError>)
    ensures r.Failure? <==> text != [] && judge(text, platform).None?
    ensures r.Success? ==> r.value.contentId == contentId
    ensures r.Success? && r.value.verdict != Review ==>
      text != [] && judge(text, platform) == Some(Confident(r.value.verdict))
    ensures text == [] ==> r.Success? && r.value.verdict == Review
    ensures text != [] && judge(text, platform) == Some(Uncertain) ==> r.Success? && r.value.verdict == Review
    ensures forall v :: text != [] && judge(text, platform) == Some(Confident(v)) ==>
      r == Success(JudgeDecision(contentId, v))
  {
    if text == [] then Success(JudgeDecision(contentId, Review))
    else
      match judge(text, platform)
      case None => Failure(JudgeUnavailable)
      case Some(Uncertain) => Success(JudgeDecision(contentId, Review))
      case Some(Confident(v)) => Success(JudgeDecision(contentId, v))
  }
}
