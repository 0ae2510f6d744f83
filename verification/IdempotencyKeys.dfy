/**
  Idempotency keys: the rows of `idempotency_keys`, and the statements that claim, finish,
  release and purge them. Times are seconds; a digest stands for the canonical text it hashes.
 */
module IdempotencyKeys {
  import opened Basics
  import Canonical

  const RETENTION: real := 86400.0
  const PURGE_GRACE: real := 3600.0
  const MAX_CLAIM_ATTEMPTS: nat := 3
  const PURGE_BATCH_SIZE: nat := 500

  datatype Scope = Scope(organization: nat, actor: string, operation: string, key: string)
  datatype Response = Response(status: int, body: string)
  datatype Row = Row(digest: string, response: Option<Response>, expiresAt: real)
  type Table = map<Scope, Row>

  /** What `begin` tells its caller; `Vanished` is the RuntimeError of a key that kept disappearing. */
  datatype Answer = Proceed | Replay(response: Response) | Reused | InProgress | Vanished

  function At(rows: Table, scope: Scope): Option<Row> {
    if scope in rows then Some(rows[scope]) else None
  }

  function Pending(digest: string, now: real): Row {
    Row(digest, None, now + RETENTION)
  }

  /** The decision on a locked row, or on the absence of one. */
  function AnswerOn(row: Option<Row>, digest: string, now: real): Answer {
    if row.None? || row.value.expiresAt <= now then Proceed
    else if row.value.digest != digest then Reused
    else if row.value.response.None? then InProgress
    else Replay(row.value.response.value)
  }

  /** `begin` as one atomic action on the table. */
  function Began(rows: Table, scope: Scope, digest: string, now: real): Table {
    if AnswerOn(At(rows, scope), digest, now).Proceed? then rows[scope := Pending(digest, now)] else rows
  }

  function FinishTable(rows: Table, scope: Scope, response: Response): Table {
    if scope in rows then rows[scope := rows[scope].(response := Some(response))] else rows
  }

  function ReleaseTable(rows: Table, scope: Scope): Table {
    if scope in rows && rows[scope].response.None? then rows - {scope} else rows
  }

  /** Rows the reconciler may delete: expired for more than the grace period, and not locked. */
  function Doomed(rows: Table, databaseNow: real, locked: set<Scope>): set<Scope> {
    set scope | scope in rows && rows[scope].expiresAt < databaseNow - PURGE_GRACE && scope !in locked
  }

  /**
    Statement `i` of a begin settles it: an INSERT (even) that finds no row, a SELECT (odd) that finds one.
    `seen[i]` is the table when that statement runs.
   */
  predicate Settles(seen: seq<Table>, scope: Scope, i: nat)
    requires i < |seen|
  {
    if i % 2 == 0 then scope !in seen[i] else scope in seen[i]
  }

  predicate FirstToSettle(seen: seq<Table>, scope: Scope, i: nat) {
    i < |seen| && Settles(seen, scope, i) && forall j: nat :: j < i ==> !Settles(seen, scope, j)
  }

  class KeyTable {
    var rows: Table

    constructor (initial: Table)
      ensures rows == initial
    {
      rows := initial;
    }

    /** INSERT ... ON CONFLICT DO NOTHING RETURNING id */
    method InsertPending(scope: Scope, digest: string, now: real) returns (inserted: bool)
      modifies this
      ensures inserted <==> scope !in old(rows)
      ensures rows == if inserted then old(rows)[scope := Pending(digest, now)] else old(rows)
    {
      inserted := scope !in rows;
      if inserted { rows := rows[scope := Pending(digest, now)]; }
    }

    /** SELECT ... FOR UPDATE */
    method LockExisting(scope: Scope) returns (row: Option<Row>)
      ensures row == At(rows, scope)
    {
      row := if scope in rows then Some(rows[scope]) else None;
    }

    /**
      Claim the key. Other transactions may commit between any two statements: before statement
      `i` the table becomes `seen[i]`. Whatever they do, `begin` acts as one atomic step on the
      first table that settles it, and gives up exactly when none of the six does.
     */
    method Begin(scope: Scope, digest: string, now: real, seen: seq<Table>) returns (answer: Answer)
      requires |seen| == 2 * MAX_CLAIM_ATTEMPTS
      modifies this
      ensures answer.Vanished? <==> forall i: nat :: i < |seen| ==> !Settles(seen, scope, i)
      ensures answer.Vanished? ==> rows == seen[|seen| - 1]
      ensures forall i: nat :: FirstToSettle(seen, scope, i) ==>
                answer == AnswerOn(At(seen[i], scope), digest, now) && rows == Began(seen[i], scope, digest, now)
    {
      var row: Option<Row> := None;
      var attempt := 0;
      while attempt < MAX_CLAIM_ATTEMPTS
        invariant attempt <= MAX_CLAIM_ATTEMPTS
        invariant row.None?
        invariant forall i: nat :: i < 2 * attempt ==> !Settles(seen, scope, i)
        invariant attempt > 0 ==> rows == seen[2 * attempt - 1]
      {
        rows := seen[2 * attempt];
        var inserted := InsertPending(scope, digest, now);
        if inserted {
          assert FirstToSettle(seen, scope, 2 * attempt);
          return Proceed;
        }
        rows := seen[2 * attempt + 1];
        row := LockExisting(scope);
        if row.Some? {
          assert FirstToSettle(seen, scope, 2 * attempt + 1);
          break;
        }
        attempt := attempt + 1;
      }
      if row.None? { return Vanished; }
      assert Settles(seen, scope, 2 * attempt + 1);
      if row.value.expiresAt <= now {
        rows := rows[scope := row.value.(digest := digest, response := None, expiresAt := now + RETENTION)];
        return Proceed;
      }
      if row.value.digest != digest { return Reused; }
      if row.value.response.None? { return InProgress; }
      return Replay(row.value.response.value);
    }

    /** False is the RuntimeError of a finish without a begin. */
    method Finish(scope: Scope, response: Response) returns (ok: bool)
      modifies this
      ensures ok <==> scope in old(rows)
      ensures rows == FinishTable(old(rows), scope, response)
    {
      ok := scope in rows;
      if ok { rows := rows[scope := rows[scope].(response := Some(response))]; }
    }

    method Release(scope: Scope)
      modifies this
      ensures rows == ReleaseTable(old(rows), scope)
      ensures scope in rows <==> scope in old(rows) && old(rows)[scope].response.Some?
    {
      if scope in rows && rows[scope].response.None? { rows := rows - {scope}; }
    }

    /** Delete doomed rows, in no particular order, up to the batch size. */
    method Purge(databaseNow: real, locked: set<Scope>) returns (purged: set<Scope>)
      modifies this
      ensures purged <= Doomed(old(rows), databaseNow, locked)
      ensures |purged| == Min(PURGE_BATCH_SIZE, |Doomed(old(rows), databaseNow, locked)|)
      ensures rows == old(rows) - purged
    {
      purged := {};
      var left := Doomed(rows, databaseNow, locked);
      ghost var doomed := left;
      while |purged| < PURGE_BATCH_SIZE && left != {}
        invariant purged + left == doomed && purged !! left
        invariant |purged| <= PURGE_BATCH_SIZE
        decreases left
      {
        var scope :| scope in left;
        purged, left := purged + {scope}, left - {scope};
      }
      assert |purged| + |left| == |purged + left|;
      rows := rows - purged;
    }
  }

  /** The row of a request for payload `p`. */
  function RowFor(p: Canonical.Payload, response: Option<Response>, expiresAt: real): Row
    requires Canonical.FaultOf(p).Fine?
  {
    Row(Canonical.CanonicalText(p).value, response, expiresAt)
  }

  /** What a later request for `q` under the same key is told. */
  function AnswerFor(row: Row, q: Canonical.Payload, now: real): Answer
    requires Canonical.FaultOf(q).Fine?
  {
    AnswerOn(Some(row), Canonical.CanonicalText(q).value, now)
  }

  /**
    What a begin is told of a row: the stored response exactly when it repeats the request, in
    retention and finished; that the key is used for another request, or that its own is still in
    progress; and after retention, to go ahead.
   */
  lemma ReplayIsForTheSameRequest(p: Canonical.Payload, q: Canonical.Payload, response: Option<Response>,
                                  expiresAt: real, now: real)
    requires Canonical.Admissible(p) && Canonical.Admissible(q)
    ensures var answer := AnswerFor(RowFor(p, response, expiresAt), q, now);
            && (answer.Replay? <==> Canonical.Equivalent(p, q) && now < expiresAt && response.Some?)
            && (answer.Reused? <==> !Canonical.Equivalent(p, q) && now < expiresAt)
            && (answer.InProgress? <==> Canonical.Equivalent(p, q) && now < expiresAt && response.None?)
            && (answer.Proceed? <==> expiresAt <= now)
            && (answer.Replay? ==> response == Some(answer.response))
  {
    hide Canonical.CanonicalText, Canonical.Equivalent;
    assert Canonical.CanonicalText(p).Success? && Canonical.CanonicalText(q).Success? by { BothHaveText(p, q); }
    Canonical.CanonicalTextTells(p, q);
  }

  lemma BothHaveText(p: Canonical.Payload, q: Canonical.Payload)
    requires Canonical.FaultOf(p).Fine? && Canonical.FaultOf(q).Fine?
    ensures Canonical.CanonicalText(p).Success? && Canonical.CanonicalText(q).Success?
  {
  }
}
