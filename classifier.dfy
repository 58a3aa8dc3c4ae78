/**
 * `process_event` of src/main.rs: unwrap the optional payload and its
 * `specific` variant (a diagnostic line when either is missing), then
 * dispatch on the closed set of variants the timeline renders. A variant
 * outside that set, or a CreateEvent with an unknown ref kind, stops the
 * run.
 */
module Classifier {
  import opened Payloads
  import opened EventHandlers

  /** How an issue comment names its target: the pull-request back-reference decides. */
  function IssueKind(issue: Issue): (kind: string)
    ensures kind == "pull request" <==> issue.isPullRequest
    ensures kind == "issue" <==> !issue.isPullRequest
  {
    if issue.isPullRequest then "pull request" else "issue"
  }

  /** The CreateEvent arm, handled inline in the dispatcher. */
  function CreateOutcome(p: CreatePayload): (r: Outcome)
    ensures r.Fatal? <==> p.refType !in {"tag", "repository", "branch"}
    ensures r.Fatal? ==> r.message == "Unsupported ref_type for CreateEvent: " + p.refType
    ensures p.refType == "tag" ==>
              r == Lines([if p.refName.Some? then "\tCreated tag " + p.refName.value
                          else "\tCreated tag with unknown value"])
    ensures p.refType == "repository" || p.refType == "branch" ==> r == Lines([])
  {
    match p.refType
    case "tag" =>
      (match p.refName
       case Some(refValue) => Lines(["\tCreated tag " + refValue])
       case None => Lines(["\tCreated tag with unknown value"]))
    case "repository" => Lines([])
    case "branch" => Lines([])
    case unsupported => Fatal("Unsupported ref_type for CreateEvent: " + unsupported)
  }

  /** The variants the dispatcher has an arm for. */
  predicate IsHandledVariant(s: Specific) {
    s.PushEvent? || s.PullRequestEvent? || s.IssueCommentEvent?
    || s.PullRequestReviewCommentEvent? || s.PullRequestReviewEvent?
    || s.ReleaseEvent? || s.CreateEvent?
  }

  /**
   * An independent statement of when a present variant stops the run: it has
   * no arm, or its arm rejects a pull-request action or a created ref kind.
   */
  predicate StopsRun(s: Specific) {
    || !IsHandledVariant(s)
    || (s.PullRequestEvent? && s.pr.action.OtherAction?)
    || (s.CreateEvent? && s.create.refType !in {"tag", "repository", "branch"})
  }

  /** The dispatch on a present `specific` payload of an event of type `eventType`. */
  function Dispatch(s: Specific, eventType: string): (r: Outcome)
    ensures r.Fatal? <==> StopsRun(s)
    ensures !IsHandledVariant(s) ==> r == Fatal("Unsupported Event type " + eventType)
    ensures r.Lines? ==> AllTabLed(r.lines)
    ensures s.PushEvent? ==> r == Lines(PushLines(s.push))
    ensures s.PullRequestEvent? ==> r == PullRequestOutcome(s.pr)
    ensures s.IssueCommentEvent? ==>
              r == Lines(IssueCommentLines(s.issueComment, IssueKind(s.issueComment.issue)))
    ensures s.PullRequestReviewCommentEvent? ==> r == Lines(ReviewCommentLines(s.reviewComment))
    ensures s.PullRequestReviewEvent? ==> r == Lines(ReviewLines(s.review))
    ensures s.ReleaseEvent? ==> r == Lines(ReleaseLines(s.release))
    ensures s.CreateEvent? ==> r == CreateOutcome(s.create)
  {
    match s
    case PushEvent(p) => Lines(PushLines(p))
    case PullRequestEvent(p) => PullRequestOutcome(p)
    case IssueCommentEvent(p) => Lines(IssueCommentLines(p, IssueKind(p.issue)))
    case PullRequestReviewCommentEvent(p) => Lines(ReviewCommentLines(p))
    case PullRequestReviewEvent(p) => Lines(ReviewLines(p))
    case ReleaseEvent(p) => Lines(ReleaseLines(p))
    case CreateEvent(p) => CreateOutcome(p)
    case _ => Fatal("Unsupported Event type " + eventType)
  }

  function NoPayloadLine(eventType: string): string {
    "\tNo payload for event " + eventType
  }

  function NoSpecificLine(eventType: string): string {
    "\tNo specific payload for event " + eventType
  }

  /**
   * What handling one event prints: a single diagnostic line when the payload
   * or its variant is missing (never fatal), otherwise the variant's lines;
   * fatal exactly when the present variant stops the run. Every printed
   * line is indented by a tab.
   */
  function ProcessEvent(e: Event): (r: Outcome)
    ensures e.payload.None? ==> r == Lines([NoPayloadLine(e.eventType)])
    ensures e.payload.Some? && e.payload.value.specific.None? ==>
              r == Lines([NoSpecificLine(e.eventType)])
    ensures e.payload.Some? && e.payload.value.specific.Some? ==>
              r == Dispatch(e.payload.value.specific.value, e.eventType)
    ensures r.Fatal? <==>
              e.payload.Some? && e.payload.value.specific.Some? && StopsRun(e.payload.value.specific.value)
    ensures r.Lines? ==> AllTabLed(r.lines)
  {
    match e.payload
    case None => Lines([NoPayloadLine(e.eventType)])
    case Some(payload) =>
      match payload.specific
      case None => Lines([NoSpecificLine(e.eventType)])
      case Some(specific) => Dispatch(specific, e.eventType)
  }

  // ------------------------------------------------------------ fallbacks

  /** `weak` is no more defined than `full`: an Option that `weak` has is `full`'s value. */
  predicate Drops<T(==)>(weak: Option<T>, full: Option<T>) {
    weak.None? || weak == full
  }

  predicate PullRequestDrops(weak: PullRequest, full: PullRequest) {
    && weak.number == full.number
    && Drops(weak.userLogin, full.userLogin)
    && Drops(weak.title, full.title)
    && Drops(weak.mergedAt, full.mergedAt)
  }

  /**
   * `weak` is `full` with some of its optional sub-fields removed: same
   * variant, same required fields.
   */
  predicate FieldsDropped(weak: Specific, full: Specific) {
    match (weak, full)
    case (PullRequestEvent(w), PullRequestEvent(f)) =>
      w.action == f.action && w.number == f.number && PullRequestDrops(w.pullRequest, f.pullRequest)
    case (PullRequestReviewCommentEvent(w), PullRequestReviewCommentEvent(f)) =>
      PullRequestDrops(w.pullRequest, f.pullRequest)
    case (PullRequestReviewEvent(w), PullRequestReviewEvent(f)) =>
      Drops(w.reviewState, f.reviewState) && PullRequestDrops(w.pullRequest, f.pullRequest)
    case (ReleaseEvent(w), ReleaseEvent(f)) =>
      w.action == f.action && w.htmlUrl == f.htmlUrl && Drops(w.releaseName, f.releaseName)
    case (CreateEvent(w), CreateEvent(f)) =>
      w.refType == f.refType && Drops(w.refName, f.refName)
    case _ => weak == full
  }

  /**
   * Removing optional sub-fields never makes a variant fatal, nor changes how
   * many lines it prints: the handlers fall back to placeholder lines.
   */
  lemma FallbackKeepsShape(weak: Specific, full: Specific, eventType: string)
    requires FieldsDropped(weak, full)
    ensures Dispatch(weak, eventType).Fatal? <==> Dispatch(full, eventType).Fatal?
    ensures Dispatch(weak, eventType).Lines? ==>
              |Dispatch(weak, eventType).lines| == |Dispatch(full, eventType).lines|
  {
    match (weak, full)
    case (PullRequestEvent(w), PullRequestEvent(f)) =>
      assert IsQuietAction(w.action) == IsQuietAction(f.action);
    case (CreateEvent(w), CreateEvent(f)) =>
    case _ =>
  }
}
