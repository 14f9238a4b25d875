/**
 * Creation of one ProwJob with bounded retry (createWithRetry).
 *
 * The Create call of the ProwJob client is not modelled as I/O: its reply to
 * the k-th attempt is given by a script `reply(k)`. Every property below holds
 * for every script, so it holds for whatever the Kubernetes API answers.
 * Backoff timing (250 ms base, factor 2, 10% jitter) is not modelled: only the
 * number of attempts and the classification of each reply matter here.
 */
module Retry {
  import opened Wrappers

  /** The three kinds of reply to Create: no error, an "already exists" error, any other error. */
  datatype CreateOutcome = Created | AlreadyExists | Failed(cause: string)

  /** The aggregate error built from every recorded Create failure, in attempt order. */
  datatype Aggregate = Aggregate(errors: seq<string>)

  /** The `Steps` of the backoff: the condition runs at most this many times. */
  const MaxAttempts: nat := 8

  /** Building an aggregate from no errors yields no error at all. */
  function NewAggregate(errs: seq<string>): (r: Option<Aggregate>)
    ensures r.None? <==> errs == []
    ensures r.Some? ==> r.value.errors == errs
  {
    if errs == [] then None else Some(Aggregate(errs))
  }

  /** The backoff condition reports "done" for a created job and for one that already exists. */
  predicate Settles(o: CreateOutcome) {
    o.Created? || o.AlreadyExists?
  }

  /** The replies to the MaxAttempts attempts the backoff allows, in attempt order. */
  function Replies(reply: nat -> CreateOutcome): (rs: seq<CreateOutcome>)
    ensures |rs| == MaxAttempts
    ensures forall i :: 0 <= i < MaxAttempts ==> rs[i] == reply(i)
  {
    seq(MaxAttempts, (i: int) requires 0 <= i => reply(i))
  }

  /** The index of the first reply in `rs` that settles the retry, or |rs| when none does. */
  function FirstSettled(rs: seq<CreateOutcome>): (k: nat)
    ensures k <= |rs|
  {
    if rs == [] || Settles(rs[0]) then 0 else 1 + FirstSettled(rs[1..])
  }

  /** FirstSettled settles unless it is |rs|, and no reply before it settles. */
  lemma {:induction false} FirstSettledIsFirst(rs: seq<CreateOutcome>)
    ensures FirstSettled(rs) < |rs| ==> Settles(rs[FirstSettled(rs)])
    ensures forall i :: 0 <= i < FirstSettled(rs) ==> !Settles(rs[i])
  {
    if rs != [] && !Settles(rs[0]) {
      FirstSettledIsFirst(rs[1..]);
    }
  }

  /** A reply that settles with none before it settling, or |rs| when none settles, is FirstSettled. */
  lemma {:induction false} FirstSettledIs(rs: seq<CreateOutcome>, k: nat)
    requires k <= |rs|
    requires k < |rs| ==> Settles(rs[k])
    requires forall i :: 0 <= i < k ==> !Settles(rs[i])
    ensures FirstSettled(rs) == k
  {
    if k > 0 {
      FirstSettledIs(rs[1..], k - 1);
    }
  }

  /** How many times Create is called: up to and including the first settling reply, never more than MaxAttempts. */
  function Attempts(reply: nat -> CreateOutcome): (n: nat)
    ensures 1 <= n <= MaxAttempts
  {
    var k := FirstSettled(Replies(reply));
    if k < MaxAttempts then k + 1 else MaxAttempts
  }

  /** The causes of the failed replies in `rs`, in attempt order. */
  function Failures(rs: seq<CreateOutcome>): (errs: seq<string>)
    ensures |errs| <= |rs|
  {
    if rs == [] then []
    else
      var last := rs[|rs| - 1];
      Failures(rs[..|rs| - 1]) + (if last.Failed? then [last.cause] else [])
  }

  /** What createWithRetry returns: no error once an attempt settles, else the aggregate of every failure. */
  function RetryResult(reply: nat -> CreateOutcome): Option<Aggregate> {
    var rs := Replies(reply);
    if FirstSettled(rs) < MaxAttempts then None else NewAggregate(Failures(rs))
  }

  /**
   * createWithRetry: call Create until a reply settles or the attempts run out,
   * recording every other failure; returns how many Create calls were made
   * and the error handed back to the caller.
   */
  method CreateWithRetry(reply: nat -> CreateOutcome) returns (attempts: nat, err: Option<Aggregate>)
    ensures attempts == Attempts(reply)
    ensures err == RetryResult(reply)
  {
    ghost var rs := Replies(reply);
    var errs: seq<string> := [];
    attempts := 0;
    while attempts < MaxAttempts
      invariant attempts <= MaxAttempts
      invariant forall i :: 0 <= i < attempts ==> !Settles(rs[i])
      invariant errs == Failures(rs[..attempts])
    {
      var outcome := reply(attempts);
      assert rs[..attempts + 1][..attempts] == rs[..attempts];
      attempts := attempts + 1;
      if Settles(outcome) {
        // the condition returned (true, nil): the backoff ends with no error
        FirstSettledIs(rs, attempts - 1);
        return attempts, None;
      }
      // record the failure and try again
      errs := errs + [outcome.cause];
    }
    assert rs[..attempts] == rs;
    FirstSettledIs(rs, MaxAttempts);
    err := NewAggregate(errs);
  }

  /** When no reply in `rs` settles, Failures keeps every one of them, in order. */
  lemma {:induction false} FailuresInOrder(rs: seq<CreateOutcome>)
    requires forall i :: 0 <= i < |rs| ==> !Settles(rs[i])
    ensures |Failures(rs)| == |rs|
    ensures forall i :: 0 <= i < |rs| ==> rs[i].Failed? && Failures(rs)[i] == rs[i].cause
  {
    if rs != [] {
      FailuresInOrder(rs[..|rs| - 1]);
    }
  }

  /**
   * Create is called up to and including the first reply that settles:
   * every call before the last got another error, and the last settled
   * unless all MaxAttempts were used.
   */
  lemma AttemptsEndAtFirstSettled(reply: nat -> CreateOutcome)
    ensures forall i :: 0 <= i < Attempts(reply) - 1 ==> !Settles(reply(i))
    ensures Attempts(reply) < MaxAttempts ==> Settles(reply(Attempts(reply) - 1))
  {
    FirstSettledIsFirst(Replies(reply));
  }

  /** The retry stops at the first reply that is a success or "already exists" and then reports success. */
  lemma StopsAtFirstSettled(reply: nat -> CreateOutcome, k: nat)
    requires k < MaxAttempts && Settles(reply(k))
    requires forall i :: 0 <= i < k ==> !Settles(reply(i))
    ensures Attempts(reply) == k + 1
    ensures RetryResult(reply) == None
  {
    FirstSettledIs(Replies(reply), k);
  }

  /** "Already exists" on the first attempt means exactly one Create call and success. */
  lemma AlreadyExistsFirstIsOneCall(reply: nat -> CreateOutcome)
    requires reply(0).AlreadyExists?
    ensures Attempts(reply) == 1
    ensures RetryResult(reply) == None
  {
    StopsAtFirstSettled(reply, 0);
  }

  /** createWithRetry returns no error exactly when one of the MaxAttempts replies settles. */
  lemma SucceedsIffSomeAttemptSettles(reply: nat -> CreateOutcome)
    ensures RetryResult(reply).None? <==> exists i :: 0 <= i < MaxAttempts && Settles(reply(i))
  {
    var rs := Replies(reply);
    FirstSettledIsFirst(rs);
    if FirstSettled(rs) == MaxAttempts {
      FailuresInOrder(rs);
    }
  }

  /**
   * When no attempt settles, Create is called MaxAttempts times and the
   * error returned carries all MaxAttempts failures in attempt order, not only the last.
   */
  lemma ExhaustionAggregatesEveryFailure(reply: nat -> CreateOutcome)
    requires forall i :: 0 <= i < MaxAttempts ==> !Settles(reply(i))
    ensures Attempts(reply) == MaxAttempts
    ensures RetryResult(reply).Some?
    ensures |RetryResult(reply).value.errors| == MaxAttempts
    ensures forall i :: 0 <= i < MaxAttempts ==> reply(i).Failed? && RetryResult(reply).value.errors[i] == reply(i).cause
  {
    var rs := Replies(reply);
    FirstSettledIs(rs, MaxAttempts);
    FailuresInOrder(rs);
  }
}
