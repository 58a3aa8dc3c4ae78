/**
 * Concrete runs of the classifier and the organizer on small inputs, stated
 * as lemmas: what one push, one pull request, one issue comment and two
 * same-day events in different repositories come out as.
 */
module Scenarios {
  import opened Payloads
  import opened Text
  import opened EventHandlers
  import opened Classifier
  import opened Organizer

  lemma SmallNumbers()
    ensures NatToString(7) == "7" && NatToString(42) == "42"
  {
    assert DigitChar(7) == '7';
    assert NatToString(4) == ['4'];
    assert NatToString(42) == NatToString(4) + ['2'];
  }

  /** The title of a multi-line commit message is its first line. */
  lemma FirstLineIsTitle()
    ensures CommitTitle("Add x\nmore detail") == "Add x"
  {
    var m := "Add x\nmore detail";
    assert m[..5] == "Add x" && m[5] == '\n';
    CommitTitleUnique(m, "Add x");
  }

  lemma MultiLineCommit()
    ensures CommitLine(Commit("a1", "Ann", "Add x\nmore detail")) == "\t\t* a1 by Ann - Add x"
  {
    FirstLineIsTitle();
    assert "\t\t* " + "a1" + " by " + "Ann" + " - " + "Add x" == "\t\t* a1 by Ann - Add x";
  }

  /** A one-line commit message is its own title. */
  lemma SingleLineCommit()
    ensures CommitLine(Commit("b2", "Bob", "Fix y")) == "\t\t* b2 by Bob - Fix y"
  {
    CommitTitleUnique("Fix y", "Fix y");
    assert "\t\t* " + "b2" + " by " + "Bob" + " - " + "Fix y" == "\t\t* b2 by Bob - Fix y";
  }

  lemma FeatureBranchHeader()
    ensures "refs/heads/feature-x" != MasterRef
    ensures "\tPush to " + "refs/heads/feature-x" + ":" == "\tPush to refs/heads/feature-x:"
  {
    assert "refs/heads/feature-x"[11] == 'f' && MasterRef[11] == 'm';
  }

  /** A push to a feature branch with two commits: a header and one line per commit. */
  lemma PushToFeatureBranch()
    ensures PushLines(PushPayload("refs/heads/feature-x",
                                  [Commit("a1", "Ann", "Add x\nmore detail"),
                                   Commit("b2", "Bob", "Fix y")]))
            == ["\tPush to refs/heads/feature-x:",
                "\t\t* a1 by Ann - Add x",
                "\t\t* b2 by Bob - Fix y"]
  {
    FeatureBranchHeader();
    PushOfTwoCommits("refs/heads/feature-x",
                     Commit("a1", "Ann", "Add x\nmore detail"), Commit("b2", "Bob", "Fix y"));
    MultiLineCommit();
    SingleLineCommit();
  }

  lemma PushOfTwoCommits(gitRef: string, c1: Commit, c2: Commit)
    requires gitRef != MasterRef
    ensures PushLines(PushPayload(gitRef, [c1, c2]))
            == ["\tPush to " + gitRef + ":", CommitLine(c1), CommitLine(c2)]
  {
    var r := PushLines(PushPayload(gitRef, [c1, c2]));
    assert |r| == 3 && r[1] == CommitLine(c1) && r[2] == CommitLine(c2);
  }

  /** A push to master prints nothing, however many commits it carries. */
  lemma PushToMasterIsSilent(commits: seq<Commit>)
    ensures PushLines(PushPayload("refs/heads/master", commits)) == []
  {
  }

  lemma MergedLineText()
    ensures PullRequestLine(42, "alice", "Merged", "Fix bug")
            == "\tPull request #42 by alice - Merged - Fix bug"
  {
    SmallNumbers();
    assert "\tPull request #" + "42" + " by " + "alice" + " - " + "Merged" + " - " + "Fix bug"
           == "\tPull request #42 by alice - Merged - Fix bug";
  }

  /** A merged pull request is reported as "Merged", with the payload's number. */
  lemma MergedPullRequest(mergedAt: int, innerNumber: nat)
    ensures PullRequestOutcome(PullRequestPayload(
              Closed, 42,
              PullRequest(innerNumber, Some("alice"), Some("Fix bug"), Some(mergedAt))))
            == Lines(["\tPull request #42 by alice - Merged - Fix bug"])
  {
    var p := PullRequestPayload(Closed, 42,
               PullRequest(innerNumber, Some("alice"), Some("Fix bug"), Some(mergedAt)));
    assert PullRequestVerb(p) == Say("Merged");
    assert PullRequestOutcome(p) == Lines([PullRequestLine(42, "alice", "Merged", "Fix bug")]);
    MergedLineText();
  }

  lemma CommentLineText()
    ensures IssueCommentLines(IssueCommentPayload(Issue(7, "Docs", true)), "pull request")
            == ["\tCommented on pull request 7 - Docs"]
  {
    SmallNumbers();
    assert "\tCommented on " + "pull request" + " " + "7" + " - " + "Docs"
           == "\tCommented on pull request 7 - Docs";
  }

  /** A comment on an issue that is a pull request names it as one. */
  lemma CommentOnPullRequest()
    ensures ProcessEvent(Event("IssueCommentEvent", "alice", "a/repo", 0,
                               Some(Payload(Some(IssueCommentEvent(
                                 IssueCommentPayload(Issue(7, "Docs", true))))))))
            == Lines(["\tCommented on pull request 7 - Docs"])
  {
    var p := IssueCommentPayload(Issue(7, "Docs", true));
    assert IssueKind(p.issue) == "pull request";
    assert Dispatch(IssueCommentEvent(p), "IssueCommentEvent") == Lines(IssueCommentLines(p, "pull request"));
    CommentLineText();
  }

  /** Same day, repositories fed as "b/repo" then "a/repo": "a/repo" comes first. */
  lemma SameDayOrderedByRepository(b: Event, a: Event, localDay: int -> int)
    requires b.repoName == "b/repo" && a.repoName == "a/repo"
    requires localDay(a.createdAt) == localDay(b.createdAt)
    ensures SortByKey([b, a], localDay) == [a, b]
  {
    assert !StrLe("b/repo", "a/repo");
    assert [b, a][1..] == [a];
    assert SortByKey([a], localDay) == [a];
  }

  /** Two kept events pass the filter unchanged. */
  lemma KeptPairPasses(x: Event, y: Event, username: string)
    requires Kept(x, username) && Kept(y, username)
    ensures Filter([x, y], username) == [x, y]
  {
    var ys: seq<Event> := [y];
    var none: seq<Event> := [];
    FilterCons(y, none, username);
    assert ys == [y] + none;
    assert Filter(none, username) == none;
    assert Filter(ys, username) == ys;
    FilterCons(x, ys, username);
    assert [x, y] == [x] + ys;
  }

  /** Two events with different keys form two one-event groups, in order. */
  lemma DistinctKeysTwoGroups(x: Event, y: Event, localDay: int -> int)
    requires KeyOf(x, localDay) != KeyOf(y, localDay)
    ensures GroupRuns([x, y], localDay)
            == [Group(KeyOf(x, localDay), [x]), Group(KeyOf(y, localDay), [y])]
  {
    assert [x, y][1..] == [y];
    assert GroupRuns([y], localDay) == [Group(KeyOf(y, localDay), [y])];
  }

  /**
   * The same two events, both kept, come out as two groups: the a/repo group
   * first, then the b/repo group, under the same day.
   */
  lemma SameDayGroupedByRepository(b: Event, a: Event, username: string, localDay: int -> int)
    requires b.repoName == "b/repo" && a.repoName == "a/repo"
    requires localDay(a.createdAt) == localDay(b.createdAt)
    requires Kept(b, username) && Kept(a, username)
    ensures var d := localDay(a.createdAt);
            Organize([b, a], username, localDay)
            == [Group(Key(d, "a/repo"), [a]), Group(Key(d, "b/repo"), [b])]
  {
    KeptPairPasses(b, a, username);
    SameDayOrderedByRepository(b, a, localDay);
    assert "a/repo"[0] != "b/repo"[0];
    DistinctKeysTwoGroups(a, b, localDay);
  }
}
