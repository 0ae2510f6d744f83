/** Applying a recommendation: one idempotent command, retried a bounded number of times. */
module ApplyRetry {
  import opened Basics
  import opened IdempotencyKeys

  const MAX_APPLY_ATTEMPTS: nat := 3

  /** How the domain call ends. */
  datatype Work =
    | Applies(response: Response)
    | RejectsForGood                      // PersistedRejection: its own changes are to be committed
    | Refuses                             // any other AppError
    | DatabaseFails(retryable: bool)
    | Crashes

  /** A claim or a COMMIT may raise a database error. */
  datatype DatabaseResult = Done | Failed(retryable: bool)

  /** One attempt: the host clock, the tables its six possible claim statements see, what happens next. */
  datatype Attempt = Attempt(now: real, seen: seq<Table>, claim: DatabaseResult, work: Work, commit: DatabaseResult)

  datatype Ending =
    | Again
    | Returned(response: Response)
    | Rejected
    | Refused
    | DatabaseError
    | OtherError

  /** How an attempt or a call ends, the table it leaves, and the effects it committed. */
  datatype After = After(ending: Ending, rows: Table, effects: seq<Response>)

  predicate WellFormed(a: Attempt) {
    |a.seen| == 2 * MAX_CLAIM_ATTEMPTS
  }

  predicate AllWellFormed(attempts: seq<Attempt>) {
    forall i: nat :: i < |attempts| ==> WellFormed(attempts[i])
  }

  // --- specification ---

  /** The first statement from `i` on that settles the claim. */
  function Settled(seen: seq<Table>, scope: Scope, i: nat): nat
    decreases |seen| - i
  {
    if i >= |seen| || Settles(seen, scope, i) then i else Settled(seen, scope, i + 1)
  }

  lemma {:induction false} SettledIsFirst(seen: seq<Table>, scope: Scope, i: nat)
    requires i <= |seen| && forall j: nat :: j < i ==> !Settles(seen, scope, j)
    ensures var k := Settled(seen, scope, i);
            if k < |seen| then FirstToSettle(seen, scope, k)
            else k == |seen| && forall j: nat :: j < |seen| ==> !Settles(seen, scope, j)
    decreases |seen| - i
  {
    if i < |seen| && !Settles(seen, scope, i) { SettledIsFirst(seen, scope, i + 1); }
  }

  /** The committed table the claim was decided on. */
  function Found(a: Attempt, scope: Scope): Table
    requires a.seen != []
  {
    a.seen[Min(Settled(a.seen, scope, 0), |a.seen| - 1)]
  }

  function BeginAnswer(a: Attempt, scope: Scope, digest: string): Answer
    requires a.seen != []
  {
    if Settled(a.seen, scope, 0) >= |a.seen| then Vanished else AnswerOn(At(Found(a, scope), scope), digest, a.now)
  }

  function Retried(retryable: bool, last: bool): Ending {
    if retryable && !last then Again else DatabaseError
  }

  function AttemptOf(a: Attempt, scope: Scope, digest: string, last: bool): After
    requires a.seen != []
  {
    var found := Found(a, scope);
    var claimed := Began(found, scope, digest, a.now);
    if a.claim.Failed? then After(Retried(a.claim.retryable, last), found, []) else
    match BeginAnswer(a, scope, digest)
    case Vanished => After(OtherError, found, [])
    case Reused => After(Refused, found, [])
    case InProgress => After(Refused, found, [])
    case Replay(stored) =>
      if a.commit.Done? then After(Returned(stored), found, []) else After(Retried(a.commit.retryable, last), found, [])
    case Proceed =>
      match a.work
      case Applies(response) =>
        if a.commit.Done? then After(Returned(response), FinishTable(claimed, scope, response), [response])
        else After(Retried(a.commit.retryable, last), found, [])
      case RejectsForGood =>
        if a.commit.Done? then After(Rejected, ReleaseTable(claimed, scope), []) else After(DatabaseError, found, [])
      case Refuses => After(Refused, found, [])
      case DatabaseFails(retryable) => After(Retried(retryable, last), found, [])
      case Crashes => After(OtherError, found, [])
  }

  /** The call, from attempt `i` on. */
  function CallFrom(attempts: seq<Attempt>, i: nat, scope: Scope, digest: string): After
    requires i < |attempts| && AllWellFormed(attempts)
    decreases |attempts| - i
  {
    var after := AttemptOf(attempts[i], scope, digest, i == |attempts| - 1);
    if after.ending.Again? then CallFrom(attempts, i + 1, scope, digest) else after
  }

  lemma AttemptFacts(a: Attempt, scope: Scope, digest: string, last: bool)
    requires WellFormed(a)
    ensures var after := AttemptOf(a, scope, digest, last);
            && (last ==> !after.ending.Again?)
            && (after.effects != [] ==>
                  && after.ending.Returned? && after.effects == [after.ending.response]
                  && after.rows ==
                      Found(a, scope)[scope := Row(digest, Some(after.ending.response), a.now + RETENTION)])
            && (after.effects == [] && !after.ending.Rejected? ==> after.rows == Found(a, scope))
            && (after.ending.Rejected? ==> after.rows == Found(a, scope) - {scope})
            && (after.ending.Returned? ==>
                  && scope in after.rows && after.rows[scope].digest == digest
                  && after.rows[scope].response == Some(after.ending.response)
                  && a.now < after.rows[scope].expiresAt)
  {
  }

  // --- the command ---

  class ApplyCommand {
    var rows: Table                // what is committed
    var effects: seq<Response>     // of this command, in commit order

    constructor ()
      ensures rows == map[] && effects == []
    {
      rows, effects := map[], [];
    }

    /** One attempt and its commit or rollback. */
    method TryOnce(a: Attempt, scope: Scope, digest: string, last: bool) returns (ending: Ending)
      requires WellFormed(a)
      modifies this
      ensures var after := AttemptOf(a, scope, digest, last);
              ending == after.ending && rows == after.rows && effects == old(effects) + after.effects
    {
      hide Settles, AnswerOn, Began, FinishTable, ReleaseTable;
      SettledIsFirst(a.seen, scope, 0);
      var session := new KeyTable(rows);
      var answer := session.Begin(scope, digest, a.now, a.seen);
      ghost var k := Settled(a.seen, scope, 0);
      if k < |a.seen| { assert FirstToSettle(a.seen, scope, k); }
      rows := Found(a, scope);
      if a.claim.Failed? { return Retried(a.claim.retryable, last); }
      if answer.Vanished? { return OtherError; }
      if answer.Reused? || answer.InProgress? { return Refused; }
      if answer.Replay? {
        if a.commit.Failed? { return Retried(a.commit.retryable, last); }
        return Returned(answer.response);
      }
      match a.work {
        case Applies(response) =>
          var ok := session.Finish(scope, response);
          if a.commit.Failed? { return Retried(a.commit.retryable, last); }
          rows, effects := session.rows, effects + [response];
          return Returned(response);
        case RejectsForGood =>
          session.Release(scope);
          if a.commit.Failed? { return DatabaseError; }
          rows := session.rows;
          return Rejected;
        case Refuses => return Refused;
        case DatabaseFails(retryable) => return Retried(retryable, last);
        case Crashes => return OtherError;
      }
    }

    method Apply(attempts: seq<Attempt>, scope: Scope, digest: string) returns (ending: Ending)
      requires |attempts| == MAX_APPLY_ATTEMPTS && AllWellFormed(attempts)
      modifies this
      ensures var after := CallFrom(attempts, 0, scope, digest);
              ending == after.ending && rows == after.rows && effects == old(effects) + after.effects
    {
      hide AttemptOf;
      var attempt := 0;
      while true
        invariant attempt < MAX_APPLY_ATTEMPTS
        invariant effects == old(effects)
        invariant CallFrom(attempts, 0, scope, digest) == CallFrom(attempts, attempt, scope, digest)
        decreases MAX_APPLY_ATTEMPTS - attempt
      {
        AttemptFacts(attempts[attempt], scope, digest, attempt == MAX_APPLY_ATTEMPTS - 1);
        ending := TryOnce(attempts[attempt], scope, digest, attempt == MAX_APPLY_ATTEMPTS - 1);
        if !ending.Again? { return; }
        attempt := attempt + 1;
      }
    }
  }

  // --- what a call does ---

  ghost predicate NonePending(rows: Table) {
    forall scope :: scope in rows ==> rows[scope].response.Some?
  }

  /**
    However the attempts go, a call commits at most one effect, and then returns it and has stored
    it; a call that returns has its response stored under its own digest; a rejected one leaves the
    key free; and no call leaves a pending row behind.
   */
  lemma {:induction false} CallFacts(attempts: seq<Attempt>, i: nat, scope: Scope, digest: string)
    requires i < |attempts| && AllWellFormed(attempts)
    requires forall i: nat :: i < |attempts| ==> NonePending(Found(attempts[i], scope))
    ensures var after := CallFrom(attempts, i, scope, digest);
            && !after.ending.Again?
            && (after.effects == [] || (after.ending.Returned? && after.effects == [after.ending.response]))
            && (after.ending.Returned? ==>
                  && scope in after.rows && after.rows[scope].digest == digest
                  && after.rows[scope].response == Some(after.ending.response))
            && (after.ending.Rejected? ==> scope !in after.rows)
            && NonePending(after.rows)
    decreases |attempts| - i
  {
    hide AttemptOf, Settled;
    var a := attempts[i];
    AttemptFacts(a, scope, digest, i == |attempts| - 1);
    if AttemptOf(a, scope, digest, i == |attempts| - 1).ending.Again? { CallFacts(attempts, i + 1, scope, digest); }
  }

  /** Every table the attempt may see has this row for the key. */
  ghost predicate Holding(a: Attempt, scope: Scope, row: Row) {
    forall rows :: rows in a.seen ==> scope in rows && rows[scope] == row
  }

  lemma HeldIsAnswered(a: Attempt, scope: Scope, digest: string, row: Row, last: bool)
    requires WellFormed(a) && Holding(a, scope, row)
    requires row.digest == digest && row.response.Some? && a.now < row.expiresAt
    ensures var after := AttemptOf(a, scope, digest, last);
            && after.effects == []
            && (after.ending == Returned(row.response.value) || after.ending.Again? || after.ending.DatabaseError?)
  {
    SettledIsFirst(a.seen, scope, 0);
    assert a.seen[1] in a.seen;
    assert Settles(a.seen, scope, 1);
    assert Found(a, scope) in a.seen;
  }

  /** Asking again inside retention, any number of attempts, never applies again and returns nothing else. */
  lemma {:induction false} RepeatAppliesNothing(attempts: seq<Attempt>, i: nat, scope: Scope, digest: string, row: Row)
    requires i < |attempts| && AllWellFormed(attempts)
    requires forall i: nat :: i < |attempts| ==> Holding(attempts[i], scope, row) && attempts[i].now < row.expiresAt
    requires row.digest == digest && row.response.Some?
    ensures var after := CallFrom(attempts, i, scope, digest);
            after.effects == [] && (after.ending == Returned(row.response.value) || after.ending.DatabaseError?)
    decreases |attempts| - i
  {
    hide AttemptOf;
    var last := i == |attempts| - 1;
    AttemptFacts(attempts[i], scope, digest, last);
    HeldIsAnswered(attempts[i], scope, digest, row, last);
    if !last && AttemptOf(attempts[i], scope, digest, last).ending.Again? {
      RepeatAppliesNothing(attempts, i + 1, scope, digest, row);
    }
  }

  // --- when a call goes on, and how it ends ---

  /** Every table the attempt may see has no row for the key. */
  ghost predicate Free(a: Attempt, scope: Scope) {
    forall rows :: rows in a.seen ==> scope !in rows
  }

  /** Every table the attempt may see has the same request's stored response, in retention. */
  ghost predicate Answered(a: Attempt, scope: Scope, digest: string) {
    exists row :: Holding(a, scope, row) && row.digest == digest && row.response.Some? && a.now < row.expiresAt
  }

  /**
    A serialization failure, a deadlock or the like ends the attempt: at the claim, in the work on a
    free key, or at the COMMIT of a success or of a replay.
   */
  ghost predicate FailsInPassing(a: Attempt, scope: Scope, digest: string) {
    || a.claim == Failed(true)
    || (a.claim.Done? && Free(a, scope) &&
        (a.work == DatabaseFails(true) || (a.work.Applies? && a.commit == Failed(true))))
    || (a.claim.Done? && Answered(a, scope, digest) && a.commit == Failed(true))
  }

  lemma FreeIsClaimed(a: Attempt, scope: Scope, digest: string)
    requires WellFormed(a) && Free(a, scope)
    ensures BeginAnswer(a, scope, digest).Proceed? && Found(a, scope) in a.seen
  {
    SettledIsFirst(a.seen, scope, 0);
    assert a.seen[0] in a.seen;
    assert Settles(a.seen, scope, 0);
  }

  lemma AnsweredIsReplayed(a: Attempt, scope: Scope, digest: string, row: Row)
    requires WellFormed(a) && Holding(a, scope, row)
    requires row.digest == digest && row.response.Some? && a.now < row.expiresAt
    ensures BeginAnswer(a, scope, digest) == Replay(row.response.value) && Found(a, scope) in a.seen
  {
    SettledIsFirst(a.seen, scope, 0);
    assert a.seen[0] in a.seen && a.seen[1] in a.seen;
    assert Settles(a.seen, scope, 1) && !Settles(a.seen, scope, 0);
  }

  lemma PassingIsRetried(a: Attempt, scope: Scope, digest: string, last: bool)
    requires WellFormed(a) && FailsInPassing(a, scope, digest)
    ensures AttemptOf(a, scope, digest, last).ending == if last then DatabaseError else Again
  {
    hide Found, BeginAnswer, Began, Holding;
    if a.claim.Done? {
      if Answered(a, scope, digest) && a.commit == Failed(true) {
        var row :| Holding(a, scope, row) && row.digest == digest && row.response.Some? && a.now < row.expiresAt;
        AnsweredIsReplayed(a, scope, digest, row);
      } else {
        FreeIsClaimed(a, scope, digest);
      }
    }
  }

  /** Attempts that fail in passing lead on to the next one. */
  lemma {:induction false} CallGoesOn(attempts: seq<Attempt>, j: nat, i: nat, scope: Scope, digest: string)
    requires i <= j < |attempts| && AllWellFormed(attempts)
    requires forall k: nat :: k < j ==> FailsInPassing(attempts[k], scope, digest)
    ensures CallFrom(attempts, i, scope, digest) == CallFrom(attempts, j, scope, digest)
    decreases j - i
  {
    hide AttemptOf, FailsInPassing;
    if i < j {
      PassingIsRetried(attempts[i], scope, digest, false);
      CallGoesOn(attempts, j, i + 1, scope, digest);
    }
  }

  /**
    Failures in passing are retried: when all attempts before the j-th fail in passing and the j-th
    finds the key free and can commit, the call ends as its work does: with the response and its one
    effect, with a rejection that frees the key, or with an error that leaves no trace.
   */
  lemma CallEndsWithItsWork(attempts: seq<Attempt>, j: nat, scope: Scope, digest: string)
    requires j < |attempts| && AllWellFormed(attempts)
    requires forall k: nat :: k < j ==> FailsInPassing(attempts[k], scope, digest)
    requires attempts[j].claim.Done? && attempts[j].commit.Done? && Free(attempts[j], scope)
    requires attempts[j].work != DatabaseFails(true)
    ensures var a, call := attempts[j], CallFrom(attempts, 0, scope, digest);
            match a.work
            case Applies(response) =>
              && call.ending == Returned(response) && call.effects == [response]
              && scope in call.rows && call.rows[scope] == Row(digest, Some(response), a.now + RETENTION)
            case RejectsForGood => call.ending == Rejected && call.effects == [] && scope !in call.rows
            case Refuses => call.ending == Refused && call.effects == [] && call.rows in a.seen
            case Crashes => call.ending == OtherError && call.effects == [] && call.rows in a.seen
            case DatabaseFails(_) => call.ending == DatabaseError && call.effects == [] && call.rows in a.seen
  {
    hide FailsInPassing, BeginAnswer, Found;
    CallGoesOn(attempts, j, 0, scope, digest);
    FreeIsClaimed(attempts[j], scope, digest);
  }

  /** Other database errors, and a COMMIT of a rejection that fails, end the call at once. */
  ghost predicate FailsForGood(a: Attempt, scope: Scope) {
    || a.claim == Failed(false)
    || (a.claim.Done? && Free(a, scope) &&
        (a.work == DatabaseFails(false) || (a.work.Applies? && a.commit == Failed(false))
         || (a.work.RejectsForGood? && a.commit.Failed?)))
  }

  /** A call that fails for good, or in passing every time, is a database error without an effect. */
  lemma CallFails(attempts: seq<Attempt>, j: nat, scope: Scope, digest: string)
    requires j < |attempts| && AllWellFormed(attempts)
    requires forall k: nat :: k < j ==> FailsInPassing(attempts[k], scope, digest)
    requires FailsForGood(attempts[j], scope) || (j == |attempts| - 1 && FailsInPassing(attempts[j], scope, digest))
    ensures var call := CallFrom(attempts, 0, scope, digest);
            call.ending == DatabaseError && call.effects == []
  {
    hide FailsInPassing, BeginAnswer, Found;
    var a := attempts[j];
    CallGoesOn(attempts, j, 0, scope, digest);
    if FailsForGood(a, scope) {
      if Free(a, scope) { FreeIsClaimed(a, scope, digest); }
    } else {
      PassingIsRetried(a, scope, digest, true);
      AttemptFacts(a, scope, digest, true);
    }
  }

  /** Some step of the attempt met a database error. */
  predicate Fails(a: Attempt) {
    a.claim.Failed? || a.work.DatabaseFails? || a.commit.Failed?
  }

  /** It met one that is not retried. */
  predicate Insurmountable(a: Attempt) {
    || a.claim == Failed(false) || a.work == DatabaseFails(false) || a.commit == Failed(false)
    || (a.work.RejectsForGood? && a.commit.Failed?)
  }

  /** A call ends in a database error only when an attempt met one that is not retried, or the last one met any. */
  lemma {:induction false} DatabaseErrorsAreReal(attempts: seq<Attempt>, i: nat, scope: Scope, digest: string)
    requires i < |attempts| && AllWellFormed(attempts)
    ensures CallFrom(attempts, i, scope, digest).ending.DatabaseError? ==>
              Fails(attempts[|attempts| - 1]) || exists k: nat :: k < |attempts| && Insurmountable(attempts[k])
    decreases |attempts| - i
  {
    hide Found, BeginAnswer, Began;
    var last := i == |attempts| - 1;
    var ending := AttemptOf(attempts[i], scope, digest, last).ending;
    if ending.Again? {
      AttemptFacts(attempts[i], scope, digest, last);
      DatabaseErrorsAreReal(attempts, i + 1, scope, digest);
    } else if ending.DatabaseError? && !last {
      assert Insurmountable(attempts[i]);
    }
  }
}
