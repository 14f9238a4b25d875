/**
 * The event handler of the draft plugin: for a decoded pull-request event it
 * decides which presubmit jobs get a ProwJob, and creates them one by one.
 *
 * Every collaborator the handler calls is a field of `Env`, a pure function
 * of what the handler passes it: JSON decoding, presubmit resolution, the
 * trust check, the regular-expression engine, SetPresubmits and Create.
 * A run of the handler is deterministic given these answers, so each
 * property proved below holds for every answer they could give.
 */
module Draft {
  import opened Wrappers
  import opened GitHub
  import opened Retry

  /** A configured presubmit job; only its name matters to the plugin. */
  datatype Presubmit = Presubmit(name: string, context: string)

  /** The ProwJob record built by NewPresubmit from its arguments. */
  datatype ProwJob = ProwJob(pull: PullRequest, baseSHA: string, job: Presubmit, eventGUID: string)

  /** What GetPresubmits is asked: the "org/repo" identifier, the ref the base-SHA getter looks up, the head SHA. */
  datatype ResolveQuery = ResolveQuery(orgRepo: string, baseRef: string, headSHA: string)

  /**
   * What GetPresubmits answers. `baseSHAFetched` is the value the base-SHA
   * getter stored in the handler's `baseSHA` variable, or None when the
   * resolver never called that getter.
   */
  datatype Resolution =
    | Resolved(presubmits: seq<Presubmit>, baseSHAFetched: Option<string>)
    | ResolveFailed(cause: string)

  /** The arguments of the trust check, after the GitHub client. */
  datatype TrustQuery = TrustQuery(onlyOrgMembers: bool, trustedOrg: string, user: string, org: string, repo: string)

  /** The collaborators of the handler. */
  datatype Env = Env(
    // json.Unmarshal of the payload into a pull-request event
    unmarshal: seq<bv8> -> Result<PullRequestEvent>,
    // c.GetPresubmits
    getPresubmits: ResolveQuery -> Resolution,
    // trigger.TrustedUser: whether the author is trusted
    trustedUser: TrustQuery -> Result<bool>,
    // regexp.MatchString(pattern, name)
    matchString: (string, string) -> Result<bool>,
    // c.JobConfig.SetPresubmits for the j-th job of the filtered list: an error or none
    setPresubmits: nat -> Option<string>,
    // Create's reply to attempt k for the j-th job of the filtered list
    create: (nat, nat) -> CreateOutcome)

  /** The plugin's configuration read by the handler: the job-name pattern. */
  datatype Server = Server(regex: string)

  /** The errors the handler returns. */
  datatype Error =
    | DecodeFailed(cause: string)              // the decoder's error, unchanged
    | ServerNotResponding(cause: string)       // "server not responding ..."
    | MembershipCheckFailed(cause: string)     // "could not check membership: ..."
    | GeneratingPresubmitFailed(cause: string) // "error generating presubmit job"

  /** One createWithRetry call: the ProwJob, how many Create calls it made, and what it returned. */
  datatype Dispatch = Dispatch(job: ProwJob, attempts: nat, err: Option<Aggregate>)

  /** What handling one event did: the createWithRetry calls in order, and the error returned. */
  datatype Outcome = Outcome(dispatched: seq<Dispatch>, err: Option<Error>)

  /** orgRepoAuthor: the base repository's owner and name, the author's login and the base ref. */
  function OrgRepoAuthor(pr: PullRequest): (r: (string, string, string, string))
    ensures r.0 == pr.base.repo.owner.login && r.1 == pr.base.repo.name
    ensures r.2 == pr.user.login && r.3 == pr.base.ref
  {
    (pr.base.repo.owner.login, pr.base.repo.name, pr.user.login, pr.base.ref)
  }

  /** The actions whose events may start jobs. */
  predicate IsTriggeringAction(action: string) {
    action == PullRequestActionOpened
    || action == PullRequestActionSynchronize
    || action == PullRequestActionConvertedToDraft
  }

  /** `match, _ := regexp.MatchString(...)`: an error (a pattern that does not compile) counts as no match. */
  predicate RegexMatches(matchString: (string, string) -> Result<bool>, regex: string, name: string) {
    matchString(regex, name).Ok? && matchString(regex, name).value
  }

  /** The presubmits whose name matches the pattern, in the order they were resolved. */
  function Selected(matchString: (string, string) -> Result<bool>, regex: string, presubmits: seq<Presubmit>): (jobs: seq<Presubmit>)
    ensures |jobs| <= |presubmits|
  {
    if presubmits == [] then []
    else
      var last := presubmits[|presubmits| - 1];
      Selected(matchString, regex, presubmits[..|presubmits| - 1])
        + (if RegexMatches(matchString, regex, last.name) then [last] else [])
  }

  /** The loop that keeps the presubmits whose name matches the pattern. */
  method FilterJobs(matchString: (string, string) -> Result<bool>, regex: string, presubmits: seq<Presubmit>)
    returns (jobs: seq<Presubmit>)
    ensures jobs == Selected(matchString, regex, presubmits)
  {
    jobs := [];
    var i := 0;
    while i < |presubmits|
      invariant i <= |presubmits|
      invariant jobs == Selected(matchString, regex, presubmits[..i])
    {
      var job := presubmits[i];
      var matched := matchString(regex, job.name);
      if matched.Ok? && matched.value {
        jobs := jobs + [job];
      }
      assert presubmits[..i + 1][..i] == presubmits[..i];
      i := i + 1;
    }
    assert presubmits[..i] == presubmits;
  }

  /** pjutil.NewPresubmit: the ProwJob for one job of this pull request. */
  function NewPresubmit(pr: PullRequest, baseSHA: string, job: Presubmit, eventGUID: string): ProwJob {
    ProwJob(pr, baseSHA, job, eventGUID)
  }

  /** Create's replies for the j-th job of the filtered list, by attempt. */
  function RepliesFor(create: (nat, nat) -> CreateOutcome, j: nat): nat -> CreateOutcome {
    (k: nat) => create(j, k)
  }

  /** The createWithRetry call for the i-th filtered job: its ProwJob, the Create calls made and the result. */
  function DispatchOf(env: Env, pr: PullRequest, baseSHA: string, eventGUID: string, jobs: seq<Presubmit>, i: nat): Dispatch
    requires i < |jobs|
  {
    var replies := RepliesFor(env.create, i);
    Dispatch(NewPresubmit(pr, baseSHA, jobs[i], eventGUID), Attempts(replies), RetryResult(replies))
  }

  /** What the dispatch loop does with jobs[i..]: `dispatched` followed by the rest. */
  function Then(dispatched: seq<Dispatch>, rest: Outcome): Outcome {
    Outcome(dispatched + rest.dispatched, rest.err)
  }

  /**
   * The dispatch loop from the i-th filtered job on: SetPresubmits, then
   * createWithRetry, for each job in turn; a SetPresubmits error ends the
   * loop and is returned, a creation error is kept with its job and the loop goes on.
   */
  function DispatchFrom(env: Env, pr: PullRequest, baseSHA: string, eventGUID: string, jobs: seq<Presubmit>, i: nat): Outcome
    requires i <= |jobs|
    decreases |jobs| - i
  {
    if i == |jobs| then Outcome([], None)
    else match env.setPresubmits(i)
      case Some(e) => Outcome([], Some(GeneratingPresubmitFailed(e)))
      case None => Then([DispatchOf(env, pr, baseSHA, eventGUID, jobs, i)], DispatchFrom(env, pr, baseSHA, eventGUID, jobs, i + 1))
  }

  /**
   * The dispatch loop of handleEvent over the filtered jobs: for each job,
   * SetPresubmits, then createWithRetry. Returns the createWithRetry calls
   * made, in order, and the error that ends handleEvent, if any.
   */
  method DispatchJobs(env: Env, pr: PullRequest, baseSHA: string, eventGUID: string, jobs: seq<Presubmit>)
    returns (dispatched: seq<Dispatch>, err: Option<Error>)
    ensures Outcome(dispatched, err) == DispatchFrom(env, pr, baseSHA, eventGUID, jobs, 0)
  {
    dispatched, err := [], None;
    var i := 0;
    while i < |jobs|
      invariant i <= |jobs|
      invariant Then(dispatched, DispatchFrom(env, pr, baseSHA, eventGUID, jobs, i))
             == DispatchFrom(env, pr, baseSHA, eventGUID, jobs, 0)
    {
      var setErr := env.setPresubmits(i);
      if setErr.Some? {
        return dispatched, Some(GeneratingPresubmitFailed(setErr.value));
      }
      var pj := NewPresubmit(pr, baseSHA, jobs[i], eventGUID);
      var attempts, createErr := CreateWithRetry(RepliesFor(env.create, i));
      var d := Dispatch(pj, attempts, createErr);
      ghost var rest := DispatchFrom(env, pr, baseSHA, eventGUID, jobs, i + 1);
      assert DispatchFrom(env, pr, baseSHA, eventGUID, jobs, i) == Then([d], rest);
      assert dispatched + ([d] + rest.dispatched) == (dispatched + [d]) + rest.dispatched;
      // a failed creation is recorded with its job; the next job is still attempted
      dispatched := dispatched + [d];
      i := i + 1;
    }
  }

  /** The question put to GetPresubmits for an event. */
  function QueryFor(ev: PullRequestEvent): ResolveQuery {
    var (org, repo, _, ref) := OrgRepoAuthor(ev.pullRequest);
    ResolveQuery(org + "/" + repo, "heads/" + ref, ev.pullRequest.head.sha)
  }

  /** The question put to the trust check for an event. */
  function TrustQueryFor(ev: PullRequestEvent): TrustQuery {
    var (org, repo, author, _) := OrgRepoAuthor(ev.pullRequest);
    TrustQuery(true, ev.repo.owner.login, author, org, repo)
  }

  /** handleEvent, as a function of the collaborators' answers. */
  function Handled(s: Server, env: Env, eventGUID: string, payload: seq<bv8>): Outcome {
    match env.unmarshal(payload)
    case Err(e) => Outcome([], Some(DecodeFailed(e)))
    case Ok(ev) =>
      match env.getPresubmits(QueryFor(ev))
      case ResolveFailed(e) => Outcome([], Some(ServerNotResponding(e)))
      case Resolved(presubmits, fetched) =>
        if |presubmits| == 0 then Outcome([], None)
        else match env.trustedUser(TrustQueryFor(ev))
          case Err(e) => Outcome([], Some(MembershipCheckFailed(e)))
          case Ok(member) =>
            if member && IsTriggeringAction(ev.action) && ev.pullRequest.draft then
              var jobs := Selected(env.matchString, s.regex, presubmits);
              DispatchFrom(env, ev.pullRequest, fetched.GetOr(""), eventGUID, jobs, 0)
            else Outcome([], None)
  }

  /**
   * handleEvent: decode, resolve the presubmits, check trust, check the
   * action and the draft flag, filter the jobs by name, then create a ProwJob
   * for each with retry. Returns the createWithRetry calls made, in order,
   * and the error handleEvent returns.
   */
  method HandleEvent(s: Server, env: Env, eventGUID: string, payload: seq<bv8>)
    returns (dispatched: seq<Dispatch>, err: Option<Error>)
    ensures Outcome(dispatched, err) == Handled(s, env, eventGUID, payload)
  {
    dispatched, err := [], None;
    var baseSHA := "";
    var decoded := env.unmarshal(payload);
    if decoded.Err? {
      return [], Some(DecodeFailed(decoded.cause));
    }
    var pr := decoded.value;
    var (org, repo, author, ref) := OrgRepoAuthor(pr.pullRequest);
    var resolution := env.getPresubmits(ResolveQuery(org + "/" + repo, "heads/" + ref, pr.pullRequest.head.sha));
    if resolution.ResolveFailed? {
      return [], Some(ServerNotResponding(resolution.cause));
    }
    // the base-SHA getter writes the captured variable only if the resolver called it
    if resolution.baseSHAFetched.Some? {
      baseSHA := resolution.baseSHAFetched.value;
    }
    var presubmits := resolution.presubmits;
    if |presubmits| == 0 {
      return;
    }
    var trusted := env.trustedUser(TrustQuery(true, pr.repo.owner.login, author, org, repo));
    if trusted.Err? {
      return [], Some(MembershipCheckFailed(trusted.cause));
    }
    if trusted.value {
      if IsTriggeringAction(pr.action) {
        if pr.pullRequest.draft {
          var jobs := FilterJobs(env.matchString, s.regex, presubmits);
          dispatched, err := DispatchJobs(env, pr.pullRequest, baseSHA, eventGUID, jobs);
        }
      }
    }
  }
}
