/**
 * Two concrete runs of handleEvent: a pull request in k8s/test converted to
 * a draft by a trusted author, with the presubmits "unit-tests" and
 * "e2e-tests" configured, and every Create call succeeding.
 */
module Scenarios {
  import opened Wrappers
  import opened GitHub
  import opened Retry
  import opened Draft

  const Alice: User := User("alice")
  const K8sTest: Repo := Repo(User("k8s"), "test")
  const UnitTests: Presubmit := Presubmit("unit-tests", "unit")
  const E2eTests: Presubmit := Presubmit("e2e-tests", "e2e")

  function ConvertedPull(): PullRequest {
    PullRequest(7, Alice,
      PullRequestBranch("main", "base-sha", K8sTest),
      PullRequestBranch("feature", "head-sha", Repo(Alice, "test")),
      true)
  }

  function ConvertedToDraft(): PullRequestEvent {
    PullRequestEvent(PullRequestActionConvertedToDraft, 7, ConvertedPull(), K8sTest)
  }

  /** Stands in for regexp.MatchString on the two patterns used here. */
  function MatchE2eOrAll(regex: string, name: string): Result<bool> {
    if regex == "" then Ok(true)
    else if regex == "^e2e.*" then Ok(|name| >= 3 && name[..3] == "e2e")
    else Err("pattern not covered by this scenario")
  }

  /** The collaborators of the scenario; the resolver never calls the base-SHA getter. */
  function ScenarioEnv(): Env {
    Env(
      (payload: seq<bv8>) => Ok(ConvertedToDraft()),
      (q: ResolveQuery) => if q.orgRepo == "k8s/test" then Resolved([UnitTests, E2eTests], None) else Resolved([], None),
      (q: TrustQuery) => Ok(q.user == "alice"),
      MatchE2eOrAll,
      (j: nat) => None,
      (j: nat, k: nat) => Created)
  }

  /** The gates all pass for the scenario's event, and nothing fetches a base SHA. */
  lemma ScenarioIsAdmitted(payload: seq<bv8>)
    ensures ScenarioEnv().unmarshal(payload) == Ok(ConvertedToDraft())
    ensures ScenarioEnv().getPresubmits(QueryFor(ConvertedToDraft())) == Resolved([UnitTests, E2eTests], None)
    ensures ScenarioEnv().trustedUser(TrustQueryFor(ConvertedToDraft())) == Ok(true)
    ensures IsTriggeringAction(ConvertedToDraft().action) && ConvertedToDraft().pullRequest.draft
  {
    assert QueryFor(ConvertedToDraft()).orgRepo == "k8s" + "/" + "test" == "k8s/test";
  }

  /** Every job of the scenario is created by its first Create call. */
  lemma FirstCreateSucceeds(j: nat)
    ensures Attempts(RepliesFor(ScenarioEnv().create, j)) == 1
    ensures RetryResult(RepliesFor(ScenarioEnv().create, j)) == None
  {
    StopsAtFirstSettled(RepliesFor(ScenarioEnv().create, j), 0);
  }

  /** The pattern "^e2e.*" leaves one job: exactly one ProwJob is created, for "e2e-tests", with one Create call. */
  lemma E2ePatternCreatesOnlyE2e(eventGUID: string, payload: seq<bv8>)
    ensures Handled(Server("^e2e.*"), ScenarioEnv(), eventGUID, payload)
         == Outcome([Dispatch(ProwJob(ConvertedPull(), "", E2eTests, eventGUID), 1, None)], None)
  {
    var env := ScenarioEnv();
    ScenarioIsAdmitted(payload);
    assert !RegexMatches(env.matchString, "^e2e.*", UnitTests.name) by {
      assert UnitTests.name[..3] == "uni";
    }
    assert RegexMatches(env.matchString, "^e2e.*", E2eTests.name) by {
      assert E2eTests.name[..3] == "e2e";
    }
    var jobs := Selected(env.matchString, "^e2e.*", [UnitTests, E2eTests]);
    assert jobs == [E2eTests] by {
      assert [UnitTests, E2eTests][..1] == [UnitTests];
      assert [UnitTests][..0] == [];
      assert Selected(env.matchString, "^e2e.*", [UnitTests]) == [];
    }
    FirstCreateSucceeds(0);
    assert DispatchFrom(env, ConvertedPull(), "", eventGUID, jobs, 1) == Outcome([], None);
  }

  /** The empty pattern keeps both jobs: two ProwJobs are created, "unit-tests" then "e2e-tests". */
  lemma EmptyPatternCreatesBothInOrder(eventGUID: string, payload: seq<bv8>)
    ensures Handled(Server(""), ScenarioEnv(), eventGUID, payload)
         == Outcome([Dispatch(ProwJob(ConvertedPull(), "", UnitTests, eventGUID), 1, None),
                     Dispatch(ProwJob(ConvertedPull(), "", E2eTests, eventGUID), 1, None)], None)
  {
    var env := ScenarioEnv();
    ScenarioIsAdmitted(payload);
    var jobs := Selected(env.matchString, "", [UnitTests, E2eTests]);
    assert jobs == [UnitTests, E2eTests] by {
      assert [UnitTests, E2eTests][..1] == [UnitTests];
      assert [UnitTests][..0] == [];
      assert Selected(env.matchString, "", [UnitTests]) == [UnitTests];
    }
    FirstCreateSucceeds(0);
    FirstCreateSucceeds(1);
    assert DispatchFrom(env, ConvertedPull(), "", eventGUID, jobs, 2) == Outcome([], None);
    assert DispatchFrom(env, ConvertedPull(), "", eventGUID, jobs, 1)
        == Outcome([Dispatch(ProwJob(ConvertedPull(), "", E2eTests, eventGUID), 1, None)], None);
  }
}
