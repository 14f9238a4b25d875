/**
 * What handleEvent guarantees, proved about its specification `Handled`
 * (which HandleEvent is proved to compute) and about the job filter and the
 * dispatch loop it is built from.
 */
module DraftProperties {
  import opened Wrappers
  import opened GitHub
  import opened Retry
  import opened Draft

  // ---------------------------------------------------------------------
  // The job filter

  /** A presubmit is kept exactly when it was resolved and its name matches the pattern. */
  lemma {:induction false} SelectedKeepsExactlyTheMatches(
    matchString: (string, string) -> Result<bool>, regex: string, presubmits: seq<Presubmit>, p: Presubmit)
    ensures p in Selected(matchString, regex, presubmits)
        <==> p in presubmits && RegexMatches(matchString, regex, p.name)
  {
    if presubmits != [] {
      var init := presubmits[..|presubmits| - 1];
      SelectedKeepsExactlyTheMatches(matchString, regex, init, p);
      assert presubmits == init + [presubmits[|presubmits| - 1]];
    }
  }

  /** The positions, in increasing order, of the presubmits whose name matches the pattern. */
  function MatchingPositions(matchString: (string, string) -> Result<bool>, regex: string, presubmits: seq<Presubmit>): seq<nat>
  {
    if presubmits == [] then []
    else
      var last := |presubmits| - 1;
      MatchingPositions(matchString, regex, presubmits[..last])
        + (if RegexMatches(matchString, regex, presubmits[last].name) then [last] else [])
  }

  /**
   * The filter keeps the matching presubmits in their resolved order: the
   * k-th kept job is the presubmit at the k-th matching position, the
   * positions increase, and a position is kept exactly when its name matches.
   */
  lemma {:induction false} SelectedPreservesOrder(
    matchString: (string, string) -> Result<bool>, regex: string, presubmits: seq<Presubmit>)
    ensures var positions := MatchingPositions(matchString, regex, presubmits);
      |positions| == |Selected(matchString, regex, presubmits)|
      && (forall k :: 0 <= k < |positions| ==>
            positions[k] < |presubmits| && Selected(matchString, regex, presubmits)[k] == presubmits[positions[k]])
      && (forall k, l :: 0 <= k < l < |positions| ==> positions[k] < positions[l])
      && (forall i :: 0 <= i < |presubmits| ==> (i in positions <==> RegexMatches(matchString, regex, presubmits[i].name)))
  {
    if presubmits != [] {
      var last := |presubmits| - 1;
      var init := presubmits[..last];
      SelectedPreservesOrder(matchString, regex, init);
      var positions := MatchingPositions(matchString, regex, presubmits);
      var previous := MatchingPositions(matchString, regex, init);
      var jobs := Selected(matchString, regex, presubmits);
      var kept := Selected(matchString, regex, init);
      var matches := RegexMatches(matchString, regex, presubmits[last].name);
      assert positions == previous + (if matches then [last] else []);
      assert jobs == kept + (if matches then [presubmits[last]] else []);
      forall k | 0 <= k < |positions|
        ensures positions[k] < |presubmits| && jobs[k] == presubmits[positions[k]]
      {
        if k < |previous| {
          assert positions[k] == previous[k] && jobs[k] == kept[k];
          assert init[previous[k]] == presubmits[previous[k]];
        }
      }
      forall i | 0 <= i < |presubmits|
        ensures i in positions <==> RegexMatches(matchString, regex, presubmits[i].name)
      {
        if i < last {
          assert init[i] == presubmits[i];
          assert last !in previous;
        }
      }
    }
  }

  /** A pattern that does not compile keeps no job. */
  lemma {:induction false} UncompilablePatternKeepsNothing(
    matchString: (string, string) -> Result<bool>, regex: string, presubmits: seq<Presubmit>)
    requires forall name :: matchString(regex, name).Err?
    ensures Selected(matchString, regex, presubmits) == []
  {
    if presubmits != [] {
      UncompilablePatternKeepsNothing(matchString, regex, presubmits[..|presubmits| - 1]);
    }
  }

  /** A pattern that matches every name (the empty pattern does) keeps every job, in order. */
  lemma {:induction false} MatchAllKeepsEverything(
    matchString: (string, string) -> Result<bool>, regex: string, presubmits: seq<Presubmit>)
    requires forall p :: p in presubmits ==> RegexMatches(matchString, regex, p.name)
    ensures Selected(matchString, regex, presubmits) == presubmits
  {
    if presubmits != [] {
      var init := presubmits[..|presubmits| - 1];
      MatchAllKeepsEverything(matchString, regex, init);
      assert presubmits == init + [presubmits[|presubmits| - 1]];
    }
  }

  // ---------------------------------------------------------------------
  // The dispatch loop

  /**
   * The k-th createWithRetry call of the loop started at the i-th filtered
   * job is for job i + k, which SetPresubmits accepted: one call per job, in order.
   */
  lemma {:induction false} DispatchedAt(
    env: Env, pr: PullRequest, baseSHA: string, eventGUID: string, jobs: seq<Presubmit>, i: nat, k: nat)
    requires i <= |jobs|
    requires k < |DispatchFrom(env, pr, baseSHA, eventGUID, jobs, i).dispatched|
    decreases k
    ensures i + k < |jobs|
    ensures env.setPresubmits(i + k).None?
    ensures DispatchFrom(env, pr, baseSHA, eventGUID, jobs, i).dispatched[k] == DispatchOf(env, pr, baseSHA, eventGUID, jobs, i + k)
  {
    var rest := DispatchFrom(env, pr, baseSHA, eventGUID, jobs, i + 1);
    assert DispatchFrom(env, pr, baseSHA, eventGUID, jobs, i).dispatched
        == [DispatchOf(env, pr, baseSHA, eventGUID, jobs, i)] + rest.dispatched;
    if k > 0 {
      DispatchedAt(env, pr, baseSHA, eventGUID, jobs, i + 1, k - 1);
    }
  }

  /**
   * The only error the loop returns is the first SetPresubmits failure from
   * the i-th job on, and it comes before the remaining jobs are dispatched;
   * without such a failure every job is dispatched and no error is returned.
   */
  lemma {:induction false} DispatchFromError(
    env: Env, pr: PullRequest, baseSHA: string, eventGUID: string, jobs: seq<Presubmit>, i: nat)
    requires i <= |jobs|
    decreases |jobs| - i
    ensures var o := DispatchFrom(env, pr, baseSHA, eventGUID, jobs, i);
      && (o.err.None? <==> forall j :: i <= j < |jobs| ==> env.setPresubmits(j).None?)
      && (o.err.None? ==> i + |o.dispatched| == |jobs|)
      && (o.err.Some? ==>
            i + |o.dispatched| < |jobs|
            && env.setPresubmits(i + |o.dispatched|).Some?
            && o.err == Some(GeneratingPresubmitFailed(env.setPresubmits(i + |o.dispatched|).value)))
  {
    if i < |jobs| && env.setPresubmits(i).None? {
      DispatchFromError(env, pr, baseSHA, eventGUID, jobs, i + 1);
      var rest := DispatchFrom(env, pr, baseSHA, eventGUID, jobs, i + 1);
      var o := DispatchFrom(env, pr, baseSHA, eventGUID, jobs, i);
      assert o.err == rest.err && |o.dispatched| == 1 + |rest.dispatched|;
    }
  }

  // ---------------------------------------------------------------------
  // The gates of handleEvent

  /**
   * Everything handleEvent checks before it filters: the payload decodes,
   * the presubmits resolve to a non-empty list, the author is trusted, the
   * action is one that triggers, and the pull request is a draft.
   */
  predicate Admitted(env: Env, payload: seq<bv8>) {
    && env.unmarshal(payload).Ok?
    && var ev := env.unmarshal(payload).value;
    && env.getPresubmits(QueryFor(ev)).Resolved?
    && |env.getPresubmits(QueryFor(ev)).presubmits| > 0
    && env.trustedUser(TrustQueryFor(ev)) == Ok(true)
    && IsTriggeringAction(ev.action)
    && ev.pullRequest.draft
  }

  /** The dispatch loop consults only SetPresubmits and Create among the collaborators. */
  lemma {:induction false} DispatchFromUsesOnlySetAndCreate(
    env1: Env, env2: Env, pr: PullRequest, baseSHA: string, eventGUID: string, jobs: seq<Presubmit>, i: nat)
    requires i <= |jobs|
    requires env1.setPresubmits == env2.setPresubmits && env1.create == env2.create
    ensures DispatchFrom(env1, pr, baseSHA, eventGUID, jobs, i) == DispatchFrom(env2, pr, baseSHA, eventGUID, jobs, i)
    decreases |jobs| - i
  {
    if i < |jobs| && env1.setPresubmits(i).None? {
      DispatchFromUsesOnlySetAndCreate(env1, env2, pr, baseSHA, eventGUID, jobs, i + 1);
    }
  }

  /**
   * The only questions handleEvent puts to the resolver and to the trust
   * check are QueryFor and TrustQueryFor of the decoded event: two sets of
   * collaborators that decode the payload alike, answer those two questions
   * alike and agree on the regex engine, SetPresubmits and Create lead to the
   * same run, whatever they would answer to any other question.
   */
  lemma HandlerAsksOnlyTheseQuestions(s: Server, env1: Env, env2: Env, eventGUID: string, payload: seq<bv8>)
    requires env1.unmarshal(payload) == env2.unmarshal(payload)
    requires env1.unmarshal(payload).Ok? ==>
      var ev := env1.unmarshal(payload).value;
      && env1.getPresubmits(QueryFor(ev)) == env2.getPresubmits(QueryFor(ev))
      && env1.trustedUser(TrustQueryFor(ev)) == env2.trustedUser(TrustQueryFor(ev))
    requires env1.matchString == env2.matchString
    requires env1.setPresubmits == env2.setPresubmits && env1.create == env2.create
    ensures Handled(s, env1, eventGUID, payload) == Handled(s, env2, eventGUID, payload)
  {
    if env1.unmarshal(payload).Ok? {
      var ev := env1.unmarshal(payload).value;
      var resolution := env1.getPresubmits(QueryFor(ev));
      if resolution.Resolved? {
        var jobs := Selected(env1.matchString, s.regex, resolution.presubmits);
        DispatchFromUsesOnlySetAndCreate(env1, env2, ev.pullRequest, resolution.baseSHAFetched.GetOr(""), eventGUID, jobs, 0);
      }
    }
  }

  /** No createWithRetry call is made unless every gate passes. */
  lemma NoCreationUnlessAdmitted(s: Server, env: Env, eventGUID: string, payload: seq<bv8>)
    ensures !Admitted(env, payload) ==> Handled(s, env, eventGUID, payload).dispatched == []
  {
  }

  /** A payload that does not decode is an error, returned before anything is created. */
  lemma DecodeFailureIsReturned(s: Server, env: Env, eventGUID: string, payload: seq<bv8>)
    requires env.unmarshal(payload).Err?
    ensures Handled(s, env, eventGUID, payload) == Outcome([], Some(DecodeFailed(env.unmarshal(payload).cause)))
  {
  }

  /** A failure to resolve the presubmits is an error, returned before anything is created. */
  lemma ResolutionFailureIsReturned(s: Server, env: Env, eventGUID: string, payload: seq<bv8>)
    requires env.unmarshal(payload).Ok?
    requires env.getPresubmits(QueryFor(env.unmarshal(payload).value)).ResolveFailed?
    ensures Handled(s, env, eventGUID, payload)
         == Outcome([], Some(ServerNotResponding(env.getPresubmits(QueryFor(env.unmarshal(payload).value)).cause)))
  {
  }

  /**
   * With no presubmit for the repository the handler stops without error,
   * before the trust check: whatever the trust check would say, nothing happens.
   */
  lemma NoPresubmitsStopBeforeTrustCheck(s: Server, env: Env, eventGUID: string, payload: seq<bv8>)
    requires env.unmarshal(payload).Ok?
    requires env.getPresubmits(QueryFor(env.unmarshal(payload).value)).Resolved?
    requires env.getPresubmits(QueryFor(env.unmarshal(payload).value)).presubmits == []
    ensures Handled(s, env, eventGUID, payload) == Outcome([], None)
  {
  }

  /** A failing trust check is an error, returned before anything is created. */
  lemma TrustCheckFailureIsReturned(s: Server, env: Env, eventGUID: string, payload: seq<bv8>)
    requires env.unmarshal(payload).Ok?
    requires var ev := env.unmarshal(payload).value;
      env.getPresubmits(QueryFor(ev)).Resolved? && |env.getPresubmits(QueryFor(ev)).presubmits| > 0
      && env.trustedUser(TrustQueryFor(ev)).Err?
    ensures Handled(s, env, eventGUID, payload)
         == Outcome([], Some(MembershipCheckFailed(env.trustedUser(TrustQueryFor(env.unmarshal(payload).value)).cause)))
  {
  }

  /** An untrusted author, another action, or a pull request that is not a draft: nothing happens and no error. */
  lemma IgnoredEventsAreSilent(s: Server, env: Env, eventGUID: string, payload: seq<bv8>)
    requires env.unmarshal(payload).Ok?
    requires var ev := env.unmarshal(payload).value;
      env.getPresubmits(QueryFor(ev)).Resolved?
      && env.trustedUser(TrustQueryFor(ev)).Ok?
      && (!env.trustedUser(TrustQueryFor(ev)).value || !IsTriggeringAction(ev.action) || !ev.pullRequest.draft)
    ensures Handled(s, env, eventGUID, payload) == Outcome([], None)
  {
  }

  /**
   * For an admitted event, handleEvent makes one createWithRetry call per
   * filtered job, in filter order, each for a ProwJob of this pull request
   * with the base SHA the resolver's getter left (empty if it was never
   * called) and the event's GUID. The only error it can return is a
   * SetPresubmits failure, which abandons the rest of the batch; a creation
   * failure is kept with its job and is never returned.
   */
  lemma AdmittedEventDispatchesFilteredJobs(s: Server, env: Env, eventGUID: string, payload: seq<bv8>)
    requires Admitted(env, payload)
    ensures var ev := env.unmarshal(payload).value;
      var resolution := env.getPresubmits(QueryFor(ev));
      var jobs := Selected(env.matchString, s.regex, resolution.presubmits);
      var o := Handled(s, env, eventGUID, payload);
      && |o.dispatched| <= |jobs|
      && (forall k :: 0 <= k < |o.dispatched| ==>
            && o.dispatched[k].job == ProwJob(ev.pullRequest, resolution.baseSHAFetched.GetOr(""), jobs[k], eventGUID)
            && o.dispatched[k].attempts == Attempts(RepliesFor(env.create, k))
            && o.dispatched[k].err == RetryResult(RepliesFor(env.create, k)))
      && (o.err.None? <==> forall j :: 0 <= j < |jobs| ==> env.setPresubmits(j).None?)
      && (o.err.None? ==> |o.dispatched| == |jobs|)
      && (o.err.Some? ==> o.err.value.GeneratingPresubmitFailed?)
  {
    var ev := env.unmarshal(payload).value;
    var resolution := env.getPresubmits(QueryFor(ev));
    var jobs := Selected(env.matchString, s.regex, resolution.presubmits);
    var baseSHA := resolution.baseSHAFetched.GetOr("");
    DispatchFromError(env, ev.pullRequest, baseSHA, eventGUID, jobs, 0);
    var o := DispatchFrom(env, ev.pullRequest, baseSHA, eventGUID, jobs, 0);
    forall k | 0 <= k < |o.dispatched|
      ensures o.dispatched[k] == DispatchOf(env, ev.pullRequest, baseSHA, eventGUID, jobs, k)
    {
      DispatchedAt(env, ev.pullRequest, baseSHA, eventGUID, jobs, 0, k);
    }
  }

  /**
   * If SetPresubmits fails for the j-th filtered job and for none before it,
   * handleEvent returns that error after exactly j createWithRetry calls.
   */
  lemma SetPresubmitsFailureAbandonsTheBatch(s: Server, env: Env, eventGUID: string, payload: seq<bv8>, j: nat)
    requires Admitted(env, payload)
    requires j < |Selected(env.matchString, s.regex, env.getPresubmits(QueryFor(env.unmarshal(payload).value)).presubmits)|
    requires env.setPresubmits(j).Some?
    requires forall i :: 0 <= i < j ==> env.setPresubmits(i).None?
    ensures |Handled(s, env, eventGUID, payload).dispatched| == j
    ensures Handled(s, env, eventGUID, payload).err == Some(GeneratingPresubmitFailed(env.setPresubmits(j).value))
  {
    var ev := env.unmarshal(payload).value;
    var resolution := env.getPresubmits(QueryFor(ev));
    var jobs := Selected(env.matchString, s.regex, resolution.presubmits);
    var baseSHA := resolution.baseSHAFetched.GetOr("");
    DispatchFromError(env, ev.pullRequest, baseSHA, eventGUID, jobs, 0);
    if j < |DispatchFrom(env, ev.pullRequest, baseSHA, eventGUID, jobs, 0).dispatched| {
      DispatchedAt(env, ev.pullRequest, baseSHA, eventGUID, jobs, 0, j);
    }
  }

  /**
   * When SetPresubmits accepts every filtered job, handleEvent returns no
   * error whatever Create replies, and every filtered job got its own
   * createWithRetry call.
   */
  lemma CreationFailuresAreNotReturned(s: Server, env: Env, eventGUID: string, payload: seq<bv8>)
    requires Admitted(env, payload)
    requires forall i ::
               0 <= i < |Selected(env.matchString, s.regex, env.getPresubmits(QueryFor(env.unmarshal(payload).value)).presubmits)|
               ==> env.setPresubmits(i).None?
    ensures Handled(s, env, eventGUID, payload).err == None
    ensures |Handled(s, env, eventGUID, payload).dispatched|
         == |Selected(env.matchString, s.regex, env.getPresubmits(QueryFor(env.unmarshal(payload).value)).presubmits)|
  {
    AdmittedEventDispatchesFilteredJobs(s, env, eventGUID, payload);
  }
}
