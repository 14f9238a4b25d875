# Draft plugin: a Dafny model of its event handler

The draft plugin is an external Prow plugin. It receives GitHub
pull-request webhooks and starts selected presubmit jobs when a pull request
is a draft. This project models the plugin's event handler in
`draft-plugin/server.go` and proves properties of it:

- `handleEvent` decides which presubmits get a ProwJob. In order, it decodes
  the payload, resolves the repository's presubmits, checks that the author
  is trusted, checks the action and the draft flag, and filters the jobs by
  the configured name pattern.
- `createWithRetry` creates one ProwJob with bounded retry. "Already exists"
  counts as success.
- `orgRepoAuthor` projects the org, repo, author and base ref out of a pull request.

The handler's collaborators are not executed. Each one is a function field of
`Draft.Env`, and every property holds for every answer they could give:

- the JSON decoder;
- `GetPresubmits`;
- the trust check;
- `regexp.MatchString`;
- `SetPresubmits`;
- the ProwJob client's `Create`.

Modules:

- `Wrappers`: `Option` and `Result`.
- `GitHub`: the pull-request event fields the handler reads, and the three action names.
- `Retry`: `CreateWithRetry`, a method with a loop over attempts. It is
  proved equal to the specification functions `Attempts` (the number of
  Create calls) and `RetryResult` (the error returned). Lemmas prove what the
  source promises about those two functions.
- `Draft`: the data model, the job filter (`FilterJobs`, a loop proved equal
  to `Selected`), the dispatch loop (`DispatchJobs`, proved equal to
  `DispatchFrom`) and `HandleEvent`, proved equal to `Handled`.
- `DraftProperties`: lemmas about `Handled`, `Selected` and `DispatchFrom`.
  They cover the gates, the error paths, order, and creation failures not
  being returned.
- `Scenarios`: two concrete runs, with the patterns `^e2e.*` and empty.

Points of the handler's behaviour worth knowing:

- The handler resolves presubmits before the trust check (server.go:96, then :103).
  An empty presubmit list therefore ends the run before trust is checked
  (`DraftProperties.NoPresubmitsStopBeforeTrustCheck`).
- The triggering actions are `"opened"`, `"synchronize"` and `"converted_to_draft"`.
- A `SetPresubmits` failure is returned at once, and the remaining jobs of
  the batch get no ProwJob (server.go:132-134).
- Creation failures are only logged, and `handleEvent` then returns nil
  (server.go:139-150).

## Model

| member | source | states |
|---|---|---|
| `Retry.CreateWithRetry` | draft-plugin/server.go:163-190 | the retry loop makes exactly `Attempts(reply)` Create calls and returns exactly `RetryResult(reply)` for every script of replies |
| `Retry.FirstSettledIsFirst` | draft-plugin/server.go:170-181 | the first attempt whose reply is success or "already exists" does settle, unless none of the 8 did, and every earlier reply is another error |
| `Retry.FirstSettledIs` | draft-plugin/server.go:170-181 | an attempt that settles after only other errors, or the step bound when none settles, is the point where the backoff stops |
| `Retry.Attempts` | draft-plugin/server.go:170 | Create is called at least once and at most 8 times (the backoff's `Steps`), whatever it replies |
| `Retry.AttemptsEndAtFirstSettled` | draft-plugin/server.go:171-181 | every Create call before the last got an error other than "already exists", and the last call settled unless all 8 were used |
| `Retry.NewAggregate` | draft-plugin/server.go:186 | the aggregate of no errors is no error; otherwise it carries exactly the recorded errors |
| `Retry.FailuresInOrder` | draft-plugin/server.go:177-179 | when none of the replies settles, the recorded errors are exactly their causes, one per attempt, in attempt order |
| `Retry.StopsAtFirstSettled` | draft-plugin/server.go:171-189 | if attempt k is the first success or "already exists", exactly k+1 Create calls are made and nil is returned |
| `Retry.AlreadyExistsFirstIsOneCall` | draft-plugin/server.go:172-176 | "already exists" on the first attempt means one Create call and success |
| `Retry.SucceedsIffSomeAttemptSettles` | draft-plugin/server.go:170-189 | createWithRetry returns nil if and only if one of the 8 attempts succeeds or finds the job already existing |
| `Retry.ExhaustionAggregatesEveryFailure` | draft-plugin/server.go:170-186 | when no attempt settles, 8 calls are made and the returned aggregate holds all 8 errors in attempt order, not only the last |
| `Draft.OrgRepoAuthor` | draft-plugin/server.go:153-159 | org is the base repository's owner login, repo the base repository's name, author the pull request user's login, ref the base ref |
| `Draft.Selected` | draft-plugin/server.go:120-126 | the filter never keeps more jobs than the resolved presubmits |
| `Draft.FilterJobs` | draft-plugin/server.go:120-126 | the filter loop returns exactly `Selected` of the resolved presubmits |
| `Draft.DispatchJobs` | draft-plugin/server.go:127-143 | the dispatch loop returns exactly `DispatchFrom` from the first filtered job |
| `Draft.HandleEvent` | draft-plugin/server.go:72-151 | the handler's createWithRetry calls and returned error are exactly `Handled` of the collaborators' answers |
| `DraftProperties.SelectedKeepsExactlyTheMatches` | draft-plugin/server.go:120-126 | a presubmit is kept if and only if it was resolved and its name matches; an error from the regex engine counts as no match |
| `DraftProperties.SelectedPreservesOrder` | draft-plugin/server.go:120-126 | the k-th kept job is the presubmit at the k-th matching position; positions strictly increase, and a position is kept if and only if its name matches |
| `DraftProperties.UncompilablePatternKeepsNothing` | draft-plugin/server.go:122 | a pattern on which the regex engine always errs keeps no job |
| `DraftProperties.MatchAllKeepsEverything` | draft-plugin/server.go:120-126 | a pattern that matches every name keeps every presubmit, in order |
| `DraftProperties.DispatchedAt` | draft-plugin/server.go:127-143 | the k-th createWithRetry call of the loop is for the k-th filtered job, whose SetPresubmits succeeded: one call per job, in filter order |
| `DraftProperties.DispatchFromError` | draft-plugin/server.go:127-143 | the loop's only error is the first SetPresubmits failure, which abandons the remaining jobs; without one every job is dispatched and nil is returned |
| `DraftProperties.HandlerAsksOnlyTheseQuestions` | draft-plugin/server.go:84-143 | GetPresubmits is asked only about "org/repo" of the base repository with "heads/"+base ref and the head SHA, and the trust check only about the author with the event repository's owner as trusted org: collaborators that agree on the decoded event, on those two answers, and on the regex engine, SetPresubmits and Create give the same run |
| `DraftProperties.NoCreationUnlessAdmitted` | draft-plugin/server.go:96-119 | no createWithRetry call happens unless the event decodes, presubmits resolve non-empty, the author is trusted, the action triggers and the PR is a draft |
| `DraftProperties.DecodeFailureIsReturned` | draft-plugin/server.go:80-83 | a payload that does not decode returns the decoder's error and creates nothing |
| `DraftProperties.ResolutionFailureIsReturned` | draft-plugin/server.go:96-99 | a resolution failure returns a "server not responding" error and creates nothing |
| `DraftProperties.NoPresubmitsStopBeforeTrustCheck` | draft-plugin/server.go:96-103 | no resolved presubmit ends the run with no error and no creation, before the trust check, whatever it would answer |
| `DraftProperties.TrustCheckFailureIsReturned` | draft-plugin/server.go:103-107 | a failing trust check returns a "could not check membership" error and creates nothing |
| `DraftProperties.IgnoredEventsAreSilent` | draft-plugin/server.go:108-150 | an untrusted author, any other action, or a pull request that is not a draft ends the run with no error and no creation |
| `DraftProperties.AdmittedEventDispatchesFilteredJobs` | draft-plugin/server.go:119-150 | for an admitted event, the k-th call is for the k-th filtered job, with this PR, the getter's base SHA (empty if never fetched) and the event GUID; only a SetPresubmits failure is returned |
| `DraftProperties.SetPresubmitsFailureAbandonsTheBatch` | draft-plugin/server.go:128-135 | when SetPresubmits first fails on the j-th job, exactly j jobs were dispatched and that error is returned |
| `DraftProperties.CreationFailuresAreNotReturned` | draft-plugin/server.go:139-150 | when SetPresubmits accepts every filtered job, every filtered job is dispatched and nil is returned, whatever Create answers |
| `Scenarios.E2ePatternCreatesOnlyE2e` | draft-plugin/server.go:72-151 | a trusted conversion to draft in k8s/test with presubmits unit-tests and e2e-tests and pattern `^e2e.*` creates one ProwJob, for e2e-tests |
| `Scenarios.EmptyPatternCreatesBothInOrder` | draft-plugin/server.go:72-151 | the same event with the empty pattern creates ProwJobs for unit-tests then e2e-tests |

## Left out

- `draft-plugin/main.go`: flag parsing, client construction, secret loading, the health endpoint and server start-up are plumbing and I/O.
- `ServeHTTP` and webhook validation (server.go:60-70): HTTP and HMAC checking done inside a library.
- `config.Load` (server.go:76-79): the model does not load configuration. A load error is only logged there. What `GetPresubmits` then does with the missing configuration is not part of this model: the resolver's answer is taken as given.
- The internals of `GetPresubmits` and of the `GetRef` call behind the base-SHA getter (server.go:85-96): the resolver is a function of its query. Its answer says whether the getter wrote the base SHA.
- The namespace the ProwJob is created in (`p.ProwJobs(s.ns)`, server.go:139): Create's replies depend only on the job's position and the attempt, so the model does not say where a job is created.
- The internals of `pjutil.NewPresubmit`: a ProwJob is a record of NewPresubmit's arguments. How the ProwJob's name is chosen is not part of this model. So the model does not claim that two deliveries of the same webhook create one job between them. It proves only that a retry stops at the first success or "already exists".
- Create's replies are a script indexed by the job's position in the filtered list and the attempt number. A run is deterministic, so this covers any server for one run. That "already exists" follows an earlier success depends on the Kubernetes API and is not modelled.
- `SetPresubmits`'s effect on the loaded job configuration: only its error result, per job position, is modelled.
- Backoff timing (server.go:170): the 250 ms base, factor 2, 10% jitter and the sleeps. Only the step bound of 8 and each reply's classification are modelled.
- The backoff's crash protection, and the branch that returns an error other than a timeout (server.go:183-185). The condition never returns an error, so the backoff ends only in success or timeout, and that branch is dead.
- The regex engine: `regexp.MatchString` is an opaque function that returns a match or an error.
- `getrestClient` and `getProwClient` (server.go:192-199): they build Kubernetes clients and can end the process.
- Logging, `context.Background()`, `helpProvider` and the `eventType` argument (used only in a debug log line). The handler's `errors` slice is only logged (server.go:144). The model keeps each job's creation error in that job's `Dispatch` record instead.
- Error message texts: errors are constructors that carry the underlying cause. The handler's exact message formatting is not modelled.
