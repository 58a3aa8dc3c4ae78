/**
 * The per-variant handlers of src/events.rs. Each one turns a payload into
 * the lines it prints (one `println!` is one line); the pull-request
 * handler may instead stop the run on an action it does not support.
 */
module EventHandlers {
  import opened Payloads
  import opened Text

  /** The only ref whose pushes are not reported. */
  const MasterRef: string := "refs/heads/master"

  // ---------------------------------------------------------------- release

  /** One line: the action, the release name when there is one, and the release's page. */
  function ReleaseLines(p: ReleasePayload): (r: seq<string>)
    ensures |r| == 1 && TabLed(r[0])
    ensures r[0] == "\t" + p.action + " release "
                    + (if p.releaseName.Some? then p.releaseName.value + " " else "")
                    + "- " + p.htmlUrl
  {
    match p.releaseName
    case Some(name) =>
      var line := "\t" + p.action + " release " + name + " - " + p.htmlUrl;
      assert line == "\t" + p.action + " release " + (name + " ") + "- " + p.htmlUrl;
      [line]
    case None => ["\t" + p.action + " release - " + p.htmlUrl]
  }

  // ------------------------------------------------------------------- push

  /**
   * The first line of a commit message: everything before the first newline,
   * or the whole message when it has none (`splitn(2, "\n").next()`, which
   * always yields a value, even for an empty message).
   */
  function CommitTitle(message: string): (title: string)
    ensures |title| <= |message| && title == message[..|title|]
    ensures '\n' !in title
    ensures |title| == |message| || message[|title|] == '\n'
  {
    if message == [] then []
    else if message[0] == '\n' then []
    else [message[0]] + CommitTitle(message[1..])
  }

  /** The three facts CommitTitle ensures single out its result. */
  lemma CommitTitleUnique(message: string, t: string)
    requires |t| <= |message| && t == message[..|t|]
    requires '\n' !in t
    requires |t| == |message| || message[|t|] == '\n'
    ensures t == CommitTitle(message)
  {
  }

  function CommitLine(c: Commit): string {
    "\t\t* " + c.sha + " by " + c.authorName + " - " + CommitTitle(c.message)
  }

  /**
   * Nothing for a push to master; otherwise a header naming the ref and one
   * line per commit, in commit order.
   */
  function PushLines(p: PushPayload): (r: seq<string>)
    ensures p.gitRef == MasterRef ==> r == []
    ensures p.gitRef != MasterRef ==>
              && |r| == 1 + |p.commits|
              && r[0] == "\tPush to " + p.gitRef + ":"
              && forall i :: 0 <= i < |p.commits| ==> r[i + 1] == CommitLine(p.commits[i])
    ensures AllTabLed(r)
  {
    if p.gitRef != MasterRef then
      ["\tPush to " + p.gitRef + ":"]
      + seq(|p.commits|, i requires 0 <= i < |p.commits| => CommitLine(p.commits[i]))
    else
      []
  }

  // ------------------------------------------------------ pull request review

  function Unavailable(number: nat): string {
    "\tPull request #" + NatToString(number) + " - details unavailable"
  }

  function PullRequestLine(number: nat, login: string, verb: string, title: string): string {
    "\tPull request #" + NatToString(number) + " by " + login + " - " + verb + " - " + title
  }

  /** The full line needs the author, the review state and the title. */
  predicate ReviewDetailsKnown(p: ReviewPayload) {
    p.pullRequest.userLogin.Some? && p.reviewState.Some? && p.pullRequest.title.Some?
  }

  /** Exactly one line: the full one when every detail is known, else a placeholder. */
  function ReviewLines(p: ReviewPayload): (r: seq<string>)
    ensures |r| == 1 && TabLed(r[0])
    ensures ReviewDetailsKnown(p) ==>
              r[0] == PullRequestLine(p.pullRequest.number, p.pullRequest.userLogin.value,
                                      p.reviewState.value, p.pullRequest.title.value)
    ensures !ReviewDetailsKnown(p) ==> r[0] == Unavailable(p.pullRequest.number)
  {
    match (p.pullRequest.userLogin, p.reviewState, p.pullRequest.title)
    case (Some(login), Some(state), Some(title)) =>
      [PullRequestLine(p.pullRequest.number, login, state, title)]
    case _ => [Unavailable(p.pullRequest.number)]
  }

  // ---------------------------------------------- pull request review comment

  /** Exactly one line; the title falls back to "title unavailable". */
  function ReviewCommentLines(p: ReviewCommentPayload): (r: seq<string>)
    ensures |r| == 1 && TabLed(r[0])
    ensures r[0] == "\tReviewed PR " + NatToString(p.pullRequest.number) + " - "
                    + (if p.pullRequest.title.Some? then p.pullRequest.title.value else "title unavailable")
  {
    var title := match p.pullRequest.title
      case Some(title) => title
      case None => "title unavailable";
    ["\tReviewed PR " + NatToString(p.pullRequest.number) + " - " + title]
  }

  // ---------------------------------------------------------- issue comment

  /** Exactly one line naming the kind of issue given by the caller, its number and title. */
  function IssueCommentLines(p: IssueCommentPayload, issueType: string): (r: seq<string>)
    ensures |r| == 1 && TabLed(r[0])
    ensures r[0] == "\tCommented on " + issueType + " " + NatToString(p.issue.number)
                    + " - " + p.issue.title
  {
    ["\tCommented on " + issueType + " " + NatToString(p.issue.number) + " - " + p.issue.title]
  }

  // ----------------------------------------------------------- pull request

  /** `{:?}` of a pull-request action: the variant's name. */
  function ActionName(a: PullRequestAction): string {
    match a
    case Opened => "Opened"
    case Edited => "Edited"
    case Closed => "Closed"
    case Reopened => "Reopened"
    case Assigned => "Assigned"
    case Unassigned => "Unassigned"
    case ReviewRequested => "ReviewRequested"
    case ReviewRequestRemoved => "ReviewRequestRemoved"
    case Labeled => "Labeled"
    case Unlabeled => "Unlabeled"
    case Synchronize => "Synchronize"
    case OtherAction(name) => name
  }

  /** What an action amounts to: a verb to print, nothing to print, or an unsupported action. */
  datatype Verb = Say(text: string) | Quiet | Unsupported(action: PullRequestAction)

  /** The actions that are deliberately not reported. */
  predicate IsQuietAction(a: PullRequestAction) {
    a == Edited || a == Assigned || a == Unassigned || a == ReviewRequested
    || a == ReviewRequestRemoved || a == Labeled || a == Unlabeled || a == Synchronize
  }

  function PullRequestVerb(p: PullRequestPayload): (v: Verb)
    ensures v.Unsupported? <==> p.action.OtherAction?
    ensures v.Quiet? <==> IsQuietAction(p.action)
    ensures p.action == Closed ==>
              v == Say(if p.pullRequest.mergedAt.Some? then "Merged" else "Closed")
    ensures p.action == Opened ==> v == Say("Opened")
    ensures p.action == Reopened ==> v == Say("Reopened")
  {
    match p.action
    case Closed => if p.pullRequest.mergedAt.Some? then Say("Merged") else Say("Closed")
    case Opened => Say(ActionName(p.action))
    case Reopened => Say(ActionName(p.action))
    case Edited => Quiet
    case Assigned => Quiet
    case Unassigned => Quiet
    case ReviewRequested => Quiet
    case ReviewRequestRemoved => Quiet
    case Labeled => Quiet
    case Unlabeled => Quiet
    case Synchronize => Quiet
    case OtherAction(_) => Unsupported(p.action)
  }

  predicate PullRequestDetailsKnown(p: PullRequestPayload) {
    p.pullRequest.userLogin.Some? && p.pullRequest.title.Some?
  }

  /**
   * Fatal exactly for an unsupported action; otherwise one line when the
   * action has a verb and none when it is quiet. The line carries the
   * payload's number, and is the full one exactly when author and title are
   * both known.
   */
  function PullRequestOutcome(p: PullRequestPayload): (r: Outcome)
    ensures r.Fatal? <==> p.action.OtherAction?
    ensures r.Fatal? ==> r.message == "Unsupported PullRequestEventAction: " + p.action.name
    ensures r.Lines? ==> |r.lines| == (if IsQuietAction(p.action) then 0 else 1)
    ensures r.Lines? ==> AllTabLed(r.lines)
    ensures r.Lines? && |r.lines| == 1 ==>
              r.lines[0] == if PullRequestDetailsKnown(p)
                            then PullRequestLine(p.number, p.pullRequest.userLogin.value,
                                                 PullRequestVerb(p).text, p.pullRequest.title.value)
                            else Unavailable(p.number)
  {
    match PullRequestVerb(p)
    case Unsupported(a) => Fatal("Unsupported PullRequestEventAction: " + ActionName(a))
    case Quiet => Lines([])
    case Say(verb) =>
      match (p.pullRequest.userLogin, p.pullRequest.title)
      case (Some(login), Some(title)) => Lines([PullRequestLine(p.number, login, verb, title)])
      case _ => Lines([Unavailable(p.number)])
  }

  /** The line printed for a pull request does not depend on `pullRequest.number`. */
  lemma PullRequestIgnoresInnerNumber(p: PullRequestPayload, n: nat)
    ensures PullRequestOutcome(p) ==
            PullRequestOutcome(p.(pullRequest := p.pullRequest.(number := n)))
  {
  }
}
