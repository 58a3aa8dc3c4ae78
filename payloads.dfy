/**
 * The data the timeline works on: a GitHub event as the feed delivers it,
 * with its optional payload and the payload variants the classifier knows.
 * Every sub-field that the GitHub API may leave out is an Option.
 *
 * Enumerations that the source prints with Rust's `{:?}` (the event type,
 * a release's action, a review's state) are kept as the strings that
 * rendering produces; the pull-request action is a datatype because the
 * classifier matches on its variants.
 */
module Payloads {

  datatype Option<+T> = None | Some(value: T)

  /** One commit of a push: its id, its author's name and its full message. */
  datatype Commit = Commit(sha: string, authorName: string, message: string)

  datatype PushPayload = PushPayload(gitRef: string, commits: seq<Commit>)

  /** The pull-request fields the handlers read; login is the author's `user.login`. */
  datatype PullRequest = PullRequest(
    number: nat,
    userLogin: Option<string>,
    title: Option<string>,
    mergedAt: Option<int>)

  datatype PullRequestAction =
    | Opened | Edited | Closed | Reopened | Assigned | Unassigned
    | ReviewRequested | ReviewRequestRemoved | Labeled | Unlabeled | Synchronize
    | OtherAction(name: string)

  /** `number` is the payload's own number, distinct from `pullRequest.number`. */
  datatype PullRequestPayload = PullRequestPayload(
    action: PullRequestAction,
    number: nat,
    pullRequest: PullRequest)

  /** An issue; `isPullRequest` holds when it carries a pull-request back-reference. */
  datatype Issue = Issue(number: nat, title: string, isPullRequest: bool)

  datatype IssueCommentPayload = IssueCommentPayload(issue: Issue)

  datatype ReviewCommentPayload = ReviewCommentPayload(pullRequest: PullRequest)

  /** `reviewState` is the review's state as `{:?}` renders it ("Approved", ...). */
  datatype ReviewPayload = ReviewPayload(reviewState: Option<string>, pullRequest: PullRequest)

  /** `action` as `{:?}` renders it ("Published", ...); `releaseName` is `release.name`. */
  datatype ReleasePayload = ReleasePayload(action: string, releaseName: Option<string>, htmlUrl: string)

  /** `refName` is the created ref (`ref`), `refType` its kind ("tag", "branch", ...). */
  datatype CreatePayload = CreatePayload(refName: Option<string>, refType: string)

  /**
   * The `specific` payload variants. CommitComment, Fork and Watch carry no
   * data here because nothing reads it; OtherPayload stands for every other
   * variant of the feed.
   */
  datatype Specific =
    | PushEvent(push: PushPayload)
    | PullRequestEvent(pr: PullRequestPayload)
    | IssueCommentEvent(issueComment: IssueCommentPayload)
    | PullRequestReviewCommentEvent(reviewComment: ReviewCommentPayload)
    | PullRequestReviewEvent(review: ReviewPayload)
    | ReleaseEvent(release: ReleasePayload)
    | CreateEvent(create: CreatePayload)
    | CommitCommentEvent
    | ForkEvent
    | WatchEvent
    | OtherPayload(kind: string)

  datatype Payload = Payload(specific: Option<Specific>)

  /**
   * An event of the feed. `eventType` is the type as `{:?}` renders it
   * ("PushEvent", "DeleteEvent", ...); `createdAt` is the creation instant
   * (seconds since the epoch, UTC).
   */
  datatype Event = Event(
    eventType: string,
    actorLogin: string,
    repoName: string,
    createdAt: int,
    payload: Option<Payload>)

  /** What handling one event does: print some lines, or stop the run (`unimplemented!`). */
  datatype Outcome = Lines(lines: seq<string>) | Fatal(message: string)

  /** Every line an event prints is indented by a tab. */
  predicate TabLed(line: string) {
    |line| > 0 && line[0] == '\t'
  }

  predicate AllTabLed(lines: seq<string>) {
    forall i :: 0 <= i < |lines| ==> TabLed(lines[i])
  }
}
