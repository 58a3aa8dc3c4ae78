# GitHub activity timeline: organizer and event classifier

This project models the core of a small command-line tool. The tool fetches a
GitHub user's public event feed and prints it as a timeline.

The model covers two parts of the tool:

- **The timeline organizer** (`main` in `src/main.rs`). It works in four steps:
  - It keeps the events the queried user authored, except deletions.
  - It sorts them stably by (local calendar day, repository name).
  - It collapses runs of equal keys into groups.
  - For each group it prints a header "day - repository", then hands each event of the group to the classifier.
- **The event classifier** (`process_event` in `src/main.rs` and the handlers in `src/events.rs`):
  - A missing payload, or a missing specific variant, gives one diagnostic line.
  - A known variant is rendered by its handler as a few fixed line templates. When an optional sub-field is absent, the pull-request, review, review-comment and create-tag handlers print a placeholder ("details unavailable", "title unavailable", "with unknown value"). The release handler instead leaves the missing name out.
  - An unknown variant, an unknown pull-request action or an unknown created-ref kind stops the run.

Everything is pure, so the model is written with datatypes, functions and lemmas:

- A printed line is an element of a returned `seq<string>`.
- A stop (`unimplemented!`) is an `Outcome.Fatal(message)`.
- A whole run is an `Output`: the lines printed, plus the message of the stop if there was one. Lines printed before a stop stay printed.

The modules are:

- `Payloads` (`payloads.dfy`): events, payload variants, outcomes.
- `Text` (`text.dfy`): decimal rendering of numbers, and lexicographic string order.
- `Seqs` (`seqs.dfy`): two facts about sequence concatenation.
- `EventHandlers` (`events.dfy`): the handlers of `src/events.rs`.
- `Classifier` (`classifier.dfy`): `process_event`.
- `Organizer` (`organizer.dfy`): filter, stable sort and group.
- `Timeline` (`timeline.dfy`): the printing loop and the end-to-end statement.
- `Scenarios` (`scenarios.dfy`): concrete inputs with their exact outputs.

The model follows the code as written in these places:

- A release without a name prints `"\t{action} release - {url}"`. The name is left out together with its separating space; it is not replaced by an empty string.
- The branch whose pushes are silent is the literal `refs/heads/master` (`src/events.rs:20`), whatever the repository's default branch is.
- CommitComment, Fork and Watch events have no handler in the code. They reach the catch-all arm (`src/main.rs:71`) and stop the run.

One choice is the model's own, because the code leaves it open. `handle_issue_comment_event` takes the issue kind as a second argument (`src/events.rs:64`), but the call at `src/main.rs:53` passes only the payload. So the code as written gives no value for the kind. The model's dispatcher passes `Classifier.IssueKind` of the issue: "pull request" when the issue carries a `pull_request` back-reference, and "issue" otherwise.

## Model

| member | source | states |
|---|---|---|
| Text.NatToString | src/events.rs:40-41 | `{}` of an unsigned number: a non-empty string of decimal digits with no leading zero |
| Text.NatToStringRoundTrip | src/events.rs:40-41 | reading the rendered digits back gives the number, so the rendering loses nothing |
| Text.NatToStringInjective | src/events.rs:55 | two different numbers never render to the same text |
| Text.StrLeReflexive | src/main.rs:94 | the repository-name comparison puts every name at or before itself |
| Text.StrLeTotal | src/main.rs:94 | any two repository names are comparable |
| Text.StrLeAntisymmetric | src/main.rs:94 | two names each at or before the other are equal |
| Text.StrLeTransitive | src/main.rs:94 | the repository-name order is transitive |
| EventHandlers.ReleaseLines | src/events.rs:7-16 | exactly one tab-indented line: action, " release ", the name and a space only when there is a name, then "- " and the page URL |
| EventHandlers.CommitTitle | src/events.rs:26 | the title is a prefix of the message with no newline, ending at the message's end or its first newline; defined even for an empty message |
| EventHandlers.CommitTitleUnique | src/events.rs:26 | any string with those three properties is the title, so they specify it completely |
| EventHandlers.PushLines | src/events.rs:18-31 | no lines for `refs/heads/master`; otherwise 1 + number of commits lines: the "Push to" header, then one line per commit in commit order; all tab-indented |
| EventHandlers.ReviewLines | src/events.rs:33-49 | exactly one line: the full one exactly when author, review state and title are all present, otherwise "details unavailable" with the pull request's number |
| EventHandlers.ReviewCommentLines | src/events.rs:51-62 | exactly one line "Reviewed PR n - title", with "title unavailable" when the title is absent |
| EventHandlers.IssueCommentLines | src/events.rs:64-69 | exactly one line "Commented on {kind} {number} - {title}" with the kind given by the caller |
| EventHandlers.PullRequestVerb | src/events.rs:76-95 | unsupported exactly for actions outside the listed set; quiet exactly for the eight listed actions; Closed gives Merged exactly when merged_at is present; Opened and Reopened give their own names |
| EventHandlers.PullRequestOutcome | src/events.rs:75-111 | fatal exactly for an unsupported action, with the action in the message; otherwise no line for a quiet action and one line for a verb, full when author and title are present and "details unavailable" otherwise, numbered by the payload's number |
| EventHandlers.PullRequestIgnoresInnerNumber | src/events.rs:101-106 | the output does not depend on the inner pull request's number |
| Classifier.IssueKind | src/main.rs:53 | the model's own choice for the issue kind that this call does not pass: "pull request" exactly when the issue has a pull-request back-reference, "issue" exactly when it has none |
| Classifier.CreateOutcome | src/main.rs:61-70 | fatal exactly when the ref kind is not tag, repository or branch, naming the kind; a tag gives "Created tag" with the ref or "with unknown value"; repository and branch give no line |
| Classifier.Dispatch | src/main.rs:49-72 | each handled variant gives exactly its handler's outcome (push, pull request, issue comment with `IssueKind`, review comment, review, release, create); fatal exactly when the variant has no arm or its arm rejects the action or ref kind; a variant with no arm stops with "Unsupported Event type"; all printed lines are tab-indented |
| Classifier.ProcessEvent | src/main.rs:39-75 | a missing payload or a missing specific variant gives exactly its one diagnostic line and is never fatal; a present variant gives exactly the dispatcher's outcome; fatal exactly when a present variant stops the run; every printed line is tab-indented |
| Classifier.FallbackKeepsShape | src/main.rs:49-70 | removing optional sub-fields from a variant never changes whether it is fatal, nor how many lines it prints |
| Organizer.Filter | src/main.rs:87 | every kept event is authored by the user and is not a deletion; each event meeting both conditions occurs in the output as often as in the input, and no other event occurs |
| Organizer.FilterAppend | src/main.rs:87 | filtering a concatenation concatenates the filtered parts, so kept events keep their relative order |
| Organizer.FilterIdempotent | src/main.rs:87 | filtering the filter's output changes nothing |
| Organizer.KeyLeReflexive | src/main.rs:88-97 | every key compares at or before itself |
| Organizer.KeyLeTotal | src/main.rs:88-97 | any two (day, repository) keys are comparable |
| Organizer.KeyLeAntisymmetric | src/main.rs:88-97 | two keys each at or before the other are equal |
| Organizer.KeyLeTransitive | src/main.rs:88-97 | the key order is transitive |
| Organizer.KeyLtTransitive | src/main.rs:88-97 | the strict key order is transitive |
| Organizer.SortedOrdered | src/main.rs:88-97 | in a sorted sequence every earlier key is at or before every later key |
| Organizer.Insert | src/main.rs:88 | inserting into a sorted sequence keeps it sorted and adds exactly the one event |
| Organizer.SortByKey | src/main.rs:88-97 | the result is ordered by day, then repository name, and is a permutation of the input |
| Organizer.InsertStable | src/main.rs:88 | insertion puts the new event ahead of all equal-keyed events already present |
| Organizer.SortStable | src/main.rs:88 | for every key, the events with that key come out in the order they went in |
| Organizer.GroupRuns | src/main.rs:98-102 | the groups put back together are the input; each is non-empty and all its events have its key; neighbouring groups have different keys; the first group has the first event's key |
| Organizer.GroupKeysIncreasing | src/main.rs:98-102 | grouping a sorted sequence gives strictly increasing keys |
| Organizer.SameKeySameGroup | src/main.rs:98-102 | in the groups of a sorted sequence, two events with the same key are in the same group |
| Organizer.Organize | src/main.rs:85-103 | the groups put back together are the sorted kept events; every group is well formed; group keys strictly increase |
| Timeline.HeadersAppend | src/main.rs:104-106 | the header lines of a concatenation are those of each part in turn |
| Timeline.DetailsAppend | src/main.rs:104-106 | the event lines of a concatenation are those of each part in turn |
| Timeline.AllEventLinesAppend | src/main.rs:106 | the lines of a concatenation of events are those of each part in turn |
| Timeline.FirstFatalAppend | src/main.rs:106 | the first stop in a concatenation is the first part's stop, or else the second part's |
| Timeline.BeforeFatalAppend | src/main.rs:106 | the events handled before the first stop in a concatenation, in terms of its parts |
| Timeline.RenderEventsSpec | src/main.rs:106 | the contract of `RenderEvents` (`group.for_each(process_event)`): handling a group stops with the first fatal event's message and prints exactly the lines of the events before it, all tab-indented |
| Timeline.HeaderNotTabLed | src/main.rs:105 | a header is not tab-indented when the rendered day is not |
| Timeline.RenderGroupsFatal | src/main.rs:104-107 | the contract of `RenderGroups`, the `for_each` over the groups: the printer stops exactly at the first fatal event, taken in group order |
| Timeline.RenderGroupsDetails | src/main.rs:104-107 | the contract of `RenderGroups`: the tab-indented lines printed are exactly the lines of the events handled before the first stop, in group order |
| Timeline.RenderGroupsHeaders | src/main.rs:104-107 | the contract of `RenderGroups`: when nothing stops the run, the other lines are exactly one header per group, in group order |
| Timeline.RunTimelineSpec | src/main.rs:85-107 | the contract of `RunTimeline`, end to end: the run stops at the first fatal event among the sorted kept events; the event lines printed are those of the sorted kept events before it; without a stop there is one header per group of the organizer |
| Scenarios.FirstLineIsTitle | src/events.rs:26 | the title of "Add x\nmore detail" is "Add x" |
| Scenarios.MultiLineCommit | src/events.rs:25-29 | a multi-line commit is printed with its first line only |
| Scenarios.SingleLineCommit | src/events.rs:25-29 | a one-line commit message is printed whole |
| Scenarios.PushOfTwoCommits | src/events.rs:18-31 | a push of two commits to a branch other than master prints the header and the two commit lines |
| Scenarios.PushToFeatureBranch | src/events.rs:18-31 | the exact three lines of a two-commit push to refs/heads/feature-x |
| Scenarios.PushToMasterIsSilent | src/events.rs:20 | a push to refs/heads/master prints nothing, whatever its commits |
| Scenarios.MergedPullRequest | src/events.rs:75-111 | a closed, merged pull request numbered 42 prints "Pull request #42 by alice - Merged - Fix bug" whatever its inner number |
| Scenarios.CommentOnPullRequest | src/events.rs:64-69 | a comment on an issue that is a pull request prints "Commented on pull request 7 - Docs" |
| Scenarios.SameDayOrderedByRepository | src/main.rs:88-97 | two same-day events given as b/repo then a/repo are sorted a/repo first |
| Scenarios.KeptPairPasses | src/main.rs:87 | two events that both meet the filter pass it unchanged, in order |
| Scenarios.DistinctKeysTwoGroups | src/main.rs:98-102 | two events with different keys form two one-event groups, in order |
| Scenarios.SameDayGroupedByRepository | src/main.rs:85-102 | two kept same-day events given as b/repo then a/repo are organized as the a/repo group, then the b/repo group, both under that day |

## Left out

- Fetching the feed (`list_user_events`, `src/main.rs:20-37`) is network I/O. The model starts from the fetched events.
- Reading the token and the user name and building the client (`src/main.rs:79-83`) is process start-up.
- The conversion of an instant to a local calendar day (`src/main.rs:90`, `src/main.rs:100`) depends on the machine's time zone. It is the parameter `localDay`, and every fact holds for any such function.
- The `%Y-%m-%d (%a)` rendering of a day (`src/main.rs:105`) is the parameter `showDay`.
- Timeline.RenderGroupsDetails: requires that no rendered day starts with a tab. A real date rendering starts with a digit, but the model cannot see the date library.
- Timeline.RenderGroupsHeaders: states the headers only for a run that does not stop. When the run stops, the headers printed are those of the groups reached, which the model does not state.
- Timeline.RunTimelineSpec: states the header lines and the event lines as two separate sequences. It does not state how they interleave (each header comes just before its group's lines). That interleaving is what `RenderGroups` computes.
- Rust's `{:?}` rendering of the event type, the release action and the review state is kept as the rendered string. The octocrab model types become the datatypes of `Payloads`.
- Printing and panicking are modelled as returned lines and a `Fatal` outcome. Output buffering and the process exit code are not modelled.
- Numbers are unbounded `nat`s where the code has `u64`. Only their decimal rendering matters here, and that does not depend on the width.
- The event's `id` is never read by the code and is not part of `Event`.
- Rendering rules for CommitComment, Fork and Watch do not exist in the code, so these events are fatal in the model.
