/** The consumer side of the session-revocation queue: each event is mapped
    to at most one delete filter over the session table, run with bounded
    retries, and an event whose retries are exhausted ends the stream. */
module Revocation {
  import opened Wrappers
  import opened SessionQueue
  import Execution

  // ---------------------------------------------------------------------
  // the session table and the delete filters

  /** A row of the session table, reduced to the columns the filters read. */
  datatype Session = Session(id: string, token: string, userId: string)

  /** The three filters the executor passes to the delete:
      `{token}`, `{id: {$exists: true}}` and `{$not: {token}}`. */
  datatype DeleteFilter = TokenIs(token: string) | IdExists | TokenIsNot(token: string)

  predicate Matches(f: DeleteFilter, s: Session) {
    match f
    case TokenIs(t) => s.token == t
    case IdExists => true
    case TokenIsNot(t) => s.token != t
  }

  /** The filter an event selects, or `None` when its guard fails and the
      transaction deletes nothing. */
  function FilterOf(e: Event): (f: Option<DeleteFilter>)
    ensures e.endpoint == RevokeSessions ==> f == Some(IdExists)
    ensures e.endpoint == RevokeSession ==>
      (f.Some? <==> e.body.token.Str?) && (f.Some? ==> f.value == TokenIs(e.body.token.s))
    ensures e.endpoint == RevokeOtherSessions ==>
      (f.Some? <==> TruthyString(e.sessionToken)) && (f.Some? ==> f.value == TokenIsNot(e.sessionToken.value))
  {
    match e.endpoint
    case RevokeSession =>
      if e.body.token.Str? then Some(TokenIs(e.body.token.s)) else None
    case RevokeSessions =>
      Some(IdExists)
    case RevokeOtherSessions =>
      if TruthyString(e.sessionToken) then Some(TokenIsNot(e.sessionToken.value)) else None
  }

  /** The table after deleting the rows that match `f`, order kept. */
  function DeleteWhere(f: DeleteFilter, store: seq<Session>): (r: seq<Session>)
    ensures forall s :: s in r <==> s in store && !Matches(f, s)
    ensures |r| <= |store|
  {
    if |store| == 0 then []
    else
      var rest := DeleteWhere(f, store[1..]);
      if Matches(f, store[0]) then rest else [store[0]] + rest
  }

  /** Deleting keeps the order of the table: a single row is kept exactly
      when the filter does not match it, and deleting from two parts of a
      table is deleting from each; together with the empty table these fix
      `DeleteWhere` completely. */
  lemma {:induction false} DeleteWhereOrder(f: DeleteFilter, a: seq<Session>, b: seq<Session>)
    ensures DeleteWhere(f, []) == []
    ensures forall s :: DeleteWhere(f, [s]) == if Matches(f, s) then [] else [s]
    ensures DeleteWhere(f, a + b) == DeleteWhere(f, a) + DeleteWhere(f, b)
  {
    forall s ensures DeleteWhere(f, [s]) == if Matches(f, s) then [] else [s] {
      DeleteOne(f, s);
    }
    DeleteConcat(f, a, b);
  }

  lemma DeleteOne(f: DeleteFilter, s: Session)
    ensures DeleteWhere(f, [s]) == if Matches(f, s) then [] else [s]
  {
    assert [s][1..] == [];
  }

  lemma {:induction false} DeleteConcat(f: DeleteFilter, a: seq<Session>, b: seq<Session>)
    ensures DeleteWhere(f, a + b) == DeleteWhere(f, a) + DeleteWhere(f, b)
    decreases |a|
  {
    if |a| == 0 {
      assert a + b == b;
    } else {
      var t := a[1..];
      DeleteConcat(f, t, b);
      assert (a + b)[1..] == t + b;
      var h := if Matches(f, a[0]) then [] else [a[0]];
      calc {
        DeleteWhere(f, a + b);
        h + DeleteWhere(f, t + b);
        h + (DeleteWhere(f, t) + DeleteWhere(f, b));
        (h + DeleteWhere(f, t)) + DeleteWhere(f, b);
      }
    }
  }

  /** A filter that matches no row leaves the table as it is. */
  lemma {:induction false} DeleteNothing(f: DeleteFilter, store: seq<Session>)
    requires forall s :: s in store ==> !Matches(f, s)
    ensures DeleteWhere(f, store) == store
  {
    if |store| > 0 {
      DeleteNothing(f, store[1..]);
      assert store == [store[0]] + store[1..];
    }
  }

  /** The effect of executing one event on the session table. */
  function Execute(e: Event, store: seq<Session>): (r: seq<Session>)
    ensures |r| <= |store|
    ensures forall s :: s in r ==> s in store
    ensures FilterOf(e).None? ==> r == store
  {
    match FilterOf(e)
    case None => store
    case Some(f) => DeleteWhere(f, store)
  }

  /** `revoke-session` deletes exactly the rows whose token is the body's
      `token` when that is a string; otherwise nothing changes. */
  lemma ExecuteRevokeSession(e: Event, store: seq<Session>)
    requires e.endpoint == RevokeSession
    ensures e.body.token.Str? ==>
      forall s :: s in Execute(e, store) <==> s in store && s.token != e.body.token.s
    ensures !e.body.token.Str? ==> Execute(e, store) == store
  {
  }

  /** `revoke-sessions` deletes every row of every user. */
  lemma ExecuteRevokeSessions(e: Event, store: seq<Session>)
    requires e.endpoint == RevokeSessions
    ensures Execute(e, store) == []
  {
    DeleteAll(store);
  }

  /** The `{id: {$exists: true}}` filter deletes every row. */
  lemma {:induction false} DeleteAll(store: seq<Session>)
    ensures DeleteWhere(IdExists, store) == []
  {
    if |store| > 0 {
      DeleteAll(store[1..]);
    }
  }

  /** `revoke-other-sessions` with a non-empty session token keeps exactly
      the rows carrying that token, whoever owns the others; with an absent
      or empty token nothing changes. */
  lemma ExecuteRevokeOtherSessions(e: Event, store: seq<Session>)
    requires e.endpoint == RevokeOtherSessions
    ensures TruthyString(e.sessionToken) ==>
      forall s :: s in Execute(e, store) <==> s in store && s.token == e.sessionToken.value
    ensures !TruthyString(e.sessionToken) ==> Execute(e, store) == store
  {
  }

  /** The filter of `revoke-other-sessions` names no user: a row of a
      different user than the one making the request is deleted as well. */
  lemma OtherSessionsDeletesOtherUsers(body: Body)
    ensures
      var mine := Session("s1", "tok-A", "alice");
      var theirs := Session("s2", "tok-B", "bob");
      Execute(Event(RevokeOtherSessions, body, Some("tok-A")), [mine, theirs]) == [mine]
  {
  }

  /** Running the same event twice deletes nothing more the second time. */
  lemma {:induction false} ExecuteIdempotent(e: Event, store: seq<Session>)
    ensures Execute(e, Execute(e, store)) == Execute(e, store)
  {
    match FilterOf(e)
    case None =>
    case Some(f) =>
      DeleteNothing(f, DeleteWhere(f, store));
  }

  /** A revoke-session request whose `token` is some session's `id` (as the
      sessions settings page sends it) deletes nothing, since no row has a
      token equal to it. */
  lemma RevokeByIdDeletesNothing(store: seq<Session>, id: string, sessionToken: Option<string>)
    requires forall s :: s in store ==> s.token != id
    ensures Execute(Event(RevokeSession, Body(Str(id), None), sessionToken), store) == store
  {
    DeleteNothing(TokenIs(id), store);
  }

  // ---------------------------------------------------------------------
  // retry with linear backoff

  /** `retry({count: 3, ...})`: at most three re-executions after the first. */
  const MaxRetries: nat := 3
  /** Retry number n waits n times this many milliseconds. */
  const BackoffStepMs: nat := 1000

  /** Whether execution number `i` (from 0) fails; attempts past the end of
      the list succeed. The outcome of the storage is an input. */
  predicate AttemptFails(attemptFails: seq<bool>, i: nat) {
    i < |attemptFails| && attemptFails[i]
  }

  /** Some execution within the retry budget succeeds. */
  predicate RetrySucceeds(attemptFails: seq<bool>) {
    exists i :: 0 <= i <= MaxRetries && !AttemptFails(attemptFails, i)
  }

  /** What one event's retried execution did: how many times the transaction
      ran, the delays waited before each retry, whether it finally
      succeeded, and the session table afterwards. */
  datatype RetryReport = RetryReport(executions: nat, delays: seq<nat>, succeeded: bool, sessions: seq<Session>)

  /** Executes `e` against `store`, retrying a failed transaction (which
      rolls back) until it succeeds or the retries are used up. */
  method ExecuteWithRetry(e: Event, store: seq<Session>, attemptFails: seq<bool>) returns (r: RetryReport)
    ensures 1 <= r.executions <= MaxRetries + 1
    ensures forall i :: 0 <= i < r.executions - 1 ==> AttemptFails(attemptFails, i)
    ensures r.succeeded == !AttemptFails(attemptFails, r.executions - 1)
    ensures r.succeeded == RetrySucceeds(attemptFails)
    ensures !r.succeeded ==> r.executions == MaxRetries + 1
    ensures |r.delays| == r.executions - 1
    ensures forall n :: 0 <= n < |r.delays| ==> r.delays[n] == (n + 1) * BackoffStepMs
    ensures r.sessions == if r.succeeded then Execute(e, store) else store
  {
    var attempt: nat := 0;
    var delays: seq<nat> := [];
    while true
      invariant attempt <= MaxRetries
      invariant forall i :: 0 <= i < attempt ==> AttemptFails(attemptFails, i)
      invariant |delays| == attempt
      invariant forall n :: 0 <= n < |delays| ==> delays[n] == (n + 1) * BackoffStepMs
      decreases MaxRetries - attempt
    {
      if !AttemptFails(attemptFails, attempt) {
        return RetryReport(attempt + 1, delays, true, Execute(e, store));
      }
      if attempt == MaxRetries {
        assert forall i :: 0 <= i <= MaxRetries ==> AttemptFails(attemptFails, i);
        return RetryReport(attempt + 1, delays, false, store);
      }
      attempt := attempt + 1;
      delays := delays + [attempt * BackoffStepMs];
    }
  }

  // ---------------------------------------------------------------------
  // the stream

  /** The subscription: processing events, or ended (by teardown, or by the
      outer `catchError` after an exhausted event). */
  datatype StreamState = Running | Stopped

  datatype PipelineState = PipelineState(stream: StreamState, sessions: seq<Session>)

  /** One event reaching the subscriber. */
  function Step(s: PipelineState, e: Event, attemptFails: seq<bool>): (r: PipelineState)
    ensures s.stream == Stopped ==> r == s
    ensures s.stream == Running ==> (r.stream == Running <==> RetrySucceeds(attemptFails))
    ensures r.sessions == if s.stream == Running && RetrySucceeds(attemptFails) then Execute(e, s.sessions) else s.sessions
  {
    match s.stream
    case Stopped => s
    case Running =>
      if RetrySucceeds(attemptFails) then PipelineState(Running, Execute(e, s.sessions))
      else PipelineState(Stopped, s.sessions)
  }

  /** An event together with how the storage behaves on its attempts. */
  datatype Publication = Publication(event: Event, attemptFails: seq<bool>)

  /** The subscriber's state after a sequence of publications. */
  function Run(s: PipelineState, pubs: seq<Publication>): (r: PipelineState)
    ensures r.stream == Running ==> s.stream == Running
    ensures |r.sessions| <= |s.sessions|
    ensures forall x :: x in r.sessions ==> x in s.sessions
    decreases |pubs|
  {
    if |pubs| == 0 then s
    else
      var last := pubs[|pubs| - 1];
      Step(Run(s, pubs[..|pubs| - 1]), last.event, last.attemptFails)
  }

  /** Running two batches one after the other is running their concatenation. */
  lemma {:induction false} RunConcat(s: PipelineState, a: seq<Publication>, b: seq<Publication>)
    ensures Run(s, a + b) == Run(Run(s, a), b)
    decreases |b|
  {
    if |b| == 0 {
      assert a + b == a;
    } else {
      assert (a + b)[..|a + b| - 1] == a + b[..|b| - 1];
      RunConcat(s, a, b[..|b| - 1]);
    }
  }

  /** A stopped stream processes nothing more. */
  lemma {:induction false} StoppedAbsorbs(s: PipelineState, pubs: seq<Publication>)
    requires s.stream == Stopped
    ensures Run(s, pubs) == s
    decreases |pubs|
  {
    if |pubs| > 0 {
      StoppedAbsorbs(s, pubs[..|pubs| - 1]);
    }
  }

  /** Once an event exhausts its retries, the stream has ended and no event
      published afterwards touches the session table. */
  lemma ExhaustionStopsLaterEvents(s: PipelineState, pubs: seq<Publication>, i: nat)
    requires i < |pubs|
    requires Run(s, pubs[..i]).stream == Running
    requires !RetrySucceeds(pubs[i].attemptFails)
    ensures Run(s, pubs) == PipelineState(Stopped, Run(s, pubs[..i]).sessions)
  {
    var before := Run(s, pubs[..i]);
    assert pubs[..i + 1][..i] == pubs[..i];
    var after := Run(s, pubs[..i + 1]);
    assert after == PipelineState(Stopped, before.sessions);
    assert pubs == pubs[..i + 1] + pubs[i + 1..];
    RunConcat(s, pubs[..i + 1], pubs[i + 1..]);
    StoppedAbsorbs(after, pubs[i + 1..]);
  }

  /** The end-to-end scenarios of the three endpoints on small tables. */
  lemma EndToEndScenarios(body: Body)
    ensures
      var a, b, c := Session("1", "tok-A", "u"), Session("2", "tok-B", "u"), Session("3", "tok-C", "u");
      && Execute(Event(RevokeSession, Body(Str("tok-A"), None), None), [a, b]) == [b]
      && Execute(Event(RevokeOtherSessions, body, Some("tok-A")), [a, b, c]) == [a]
      && Execute(Event(RevokeSessions, body, None), [a, b]) == []
  {
    var a, b, c := Session("1", "tok-A", "u"), Session("2", "tok-B", "u"), Session("3", "tok-C", "u");
    assert b.token != "tok-A" && c.token != "tok-A" by {
      assert b.token[4] != 'A' && c.token[4] != 'A';
    }
    assert DeleteWhere(TokenIs("tok-A"), [a, b]) == [b] by {
      assert [a, b][1..] == [b];
      assert [b][1..] == [];
    }
    assert DeleteWhere(TokenIsNot("tok-A"), [a, b, c]) == [a] by {
      assert [c][1..] == [];
      assert DeleteWhere(TokenIsNot("tok-A"), [c]) == [];
      assert [b, c][1..] == [c];
      assert DeleteWhere(TokenIsNot("tok-A"), [b, c]) == [];
      assert [a, b, c][1..] == [b, c];
    }
    DeleteAll([a, b]);
  }

  // ---------------------------------------------------------------------
  // the subscription and its teardown

  /** The subscriber of the shared queue together with the session table it
      deletes from and the `destroy$` subject that ends it. */
  class RevocationPipeline {
    /** The one queue instance, shared with the publisher. */
    const queue: Queue
    var sessions: seq<Session>
    var stream: StreamState
    /** `destroy$` has been unsubscribed; `next` and `complete` on it throw. */
    var destroyClosed: bool

    ghost predicate Valid()
      reads this, queue
    {
      queue.stopped ==> stream == Stopped
    }

    function State(): PipelineState
      reads this
    {
      PipelineState(stream, sessions)
    }

    /** Subscribes to `queue`. The subject first hands the new subscriber its
        current value; the null sentinel is filtered out, and a completed
        subject completes the subscriber at once. */
    constructor (queue: Queue, sessions: seq<Session>, replayFails: seq<bool>)
      ensures this.queue == queue && !destroyClosed && Valid()
      ensures queue.stopped ==> State() == PipelineState(Stopped, sessions)
      ensures !queue.stopped && queue.value.None? ==> State() == PipelineState(Running, sessions)
      ensures !queue.stopped && queue.value.Some? ==>
        State() == Step(PipelineState(Running, sessions), queue.value.value, replayFails)
    {
      this.queue := queue;
      this.sessions := sessions;
      this.stream := if queue.stopped then Stopped else Running;
      this.destroyClosed := false;
      new;
      if !queue.stopped && queue.value.Some? {
        var report := ExecuteWithRetry(queue.value.value, sessions, replayFails);
        this.sessions := report.sessions;
        if !report.succeeded {
          this.stream := Stopped;
        }
      }
    }

    /** `next(v)` on the shared queue: the value is stored, and a non-null
        value reaches the subscriber while the stream is running. */
    method Publish(v: Option<Event>, attemptFails: seq<bool>) returns (report: Option<RetryReport>)
      requires Valid()
      modifies this, queue
      ensures Valid()
      ensures queue.value == v && queue.stopped == old(queue.stopped) && destroyClosed == old(destroyClosed)
      ensures v.None? ==> State() == old(State())
      ensures v.Some? ==> State() == Step(old(State()), v.value, attemptFails)
      ensures report.Some? <==> v.Some? && old(stream) == Running
      ensures report.Some? ==>
        && 1 <= report.value.executions <= MaxRetries + 1
        && report.value.succeeded == RetrySucceeds(attemptFails)
        && |report.value.delays| == report.value.executions - 1
        && (forall n :: 0 <= n < |report.value.delays| ==> report.value.delays[n] == (n + 1) * BackoffStepMs)
        && report.value.sessions == sessions
    {
      queue.Next(v);
      report := None;
      if v.Some? && stream == Running && !queue.stopped {
        var r := ExecuteWithRetry(v.value, sessions, attemptFails);
        sessions := r.sessions;
        if !r.succeeded {
          stream := Stopped;
        }
        report := Some(r);
      }
    }

    /** `cleanup`: the five teardown steps run through `SyncTryCatchBulk`.
        On a second call the first two throw (the `destroy$` subject is
        already closed) and are logged; nothing is propagated. */
    method Cleanup() returns (invoked: seq<nat>, logged: seq<nat>)
      requires Valid()
      modifies this, queue
      ensures Valid()
      ensures invoked == [0, 1, 2, 3, 4]
      ensures logged == if old(destroyClosed) then [0, 1] else []
      ensures stream == Stopped && queue.stopped && destroyClosed
      ensures sessions == old(sessions) && queue.value == old(queue.value)
    {
      var throws := [destroyClosed, destroyClosed, false, false, false];
      invoked, logged := Execution.SyncTryCatchBulk(throws, false);
      assert Execution.FailedIndices(throws, 0) == [];
      assert Execution.FailedIndices(throws, 3) == Execution.FailedIndices(throws, 2);
      if !throws[0] {
        // destroy$.next(): takeUntil ends the stream
        stream := Stopped;
      }
      // destroy$.unsubscribe()
      destroyClosed := true;
      // revokeQueueSubject.complete()
      queue.Complete();
      // revokeSubscription.unsubscribe()
      stream := Stopped;
    }
  }
}
