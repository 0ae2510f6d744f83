/**
  Any number of commands under idempotency keys, interleaved statement by statement: what is
  replayed, and how far apart two effects of one key must be.
 */
module IdempotencyRuns {
  import opened Basics
  import opened IdempotencyKeys

  datatype Phase =
    | Claiming(tries: nat)            // about to INSERT
    | Conflicted(tries: nat)          // the INSERT found a row; about to SELECT ... FOR UPDATE
    | Working                         // holds a pending claim; the command runs
    | Finished(response: Response)
    | Released
    | Answered(answer: Answer)        // begin returned or raised something other than Proceed

  /** One transaction; `now` is the host clock as `begin` read it. */
  datatype Txn = Txn(scope: Scope, digest: string, now: real, phase: Phase)

  /** The committed effect of a command. */
  datatype Effect = Effect(scope: Scope, digest: string, stamp: real, response: Response)

  /** The database clock, the committed rows, the open transactions, the effects in commit order. */
  datatype State = State(clock: real, rows: Table, txns: map<nat, Txn>, effects: seq<Effect>)

  const INIT := State(0.0, map[], map[], [])

  datatype Step =
    | Tick(to: real)
    | Start(id: nat, scope: Scope, digest: string, now: real)
    | Insert(id: nat)
    | Lock(id: nat)
    | Finish(id: nat, response: Response)
    | Release(id: nat)
    | Commit(id: nat)
    | Rollback(id: nat)
    | Purge(purged: set<Scope>)

  /**
    What is known of the environment: a stamp is at most `lead` ahead of the database clock when
    it is read, and at most `lag` behind it when an INSERT uses it; and the commands, by operation,
    that may commit a rejection, releasing their key.
   */
  datatype Rules = Rules(lag: real, lead: real, releases: string -> bool) {
    predicate Sensible() {
      0.0 <= lag && 0.0 <= lead && lag + lead <= RETENTION
    }

    /** A key of the operation without a row has no effect younger than this. */
    function Margin(operation: string): real {
      if releases(operation) then RETENTION - lead else RETENTION + PURGE_GRACE
    }

    function Spacing(operation: string): real {
      MinReal(RETENTION, Margin(operation) - lag)
    }
  }

  // --- steps ---

  /** A claim, finished or not, and a lock on an existing row last until the transaction ends. */
  predicate Holds(txn: Txn) {
    match txn.phase
    case Claiming(_) => false
    case Conflicted(_) => false
    case Answered(answer) => !answer.Vanished?
    case _ => true
  }

  predicate Claims(txn: Txn) {
    txn.phase.Working? || txn.phase.Finished? || txn.phase.Released?
  }

  predicate Free(s: State, scope: Scope) {
    forall id :: id in s.txns && Holds(s.txns[id]) ==> s.txns[id].scope != scope
  }

  /**
    An INSERT waits only for a transaction that wrote the row, inserting or resetting it;
    a row that is merely locked is in conflict at once.
   */
  predicate Unwritten(s: State, scope: Scope) {
    forall id :: id in s.txns && Claims(s.txns[id]) ==> s.txns[id].scope != scope
  }

  function Locked(s: State): set<Scope> {
    set id | id in s.txns && Holds(s.txns[id]) :: s.txns[id].scope
  }

  predicate Enabled(rules: Rules, s: State, step: Step) {
    match step
    case Tick(to) => s.clock <= to
    case Start(id, _, _, now) => id !in s.txns && now <= s.clock + rules.lead
    case Insert(id) =>
      && id in s.txns && s.txns[id].phase.Claiming? && Unwritten(s, s.txns[id].scope)
      && s.clock - rules.lag <= s.txns[id].now
    case Lock(id) => id in s.txns && s.txns[id].phase.Conflicted? && Free(s, s.txns[id].scope)
    case Finish(id, _) => id in s.txns && s.txns[id].phase.Working?
    case Release(id) => id in s.txns && s.txns[id].phase.Working? && rules.releases(s.txns[id].scope.operation)
    case Commit(id) => id in s.txns && (var p := s.txns[id].phase; p.Finished? || p.Released? || p.Answered?)
    case Rollback(id) => id in s.txns
    case Purge(purged) => purged <= Doomed(s.rows, s.clock, Locked(s))
  }

  function AfterInsert(rows: Table, txn: Txn): Phase
    requires txn.phase.Claiming?
  {
    if txn.scope in rows then Conflicted(txn.phase.tries) else Working
  }

  function AfterLock(rows: Table, txn: Txn): Phase
    requires txn.phase.Conflicted?
  {
    if txn.scope in rows then
      var answer := AnswerOn(Some(rows[txn.scope]), txn.digest, txn.now);
      if answer.Proceed? then Working else Answered(answer)
    else if txn.phase.tries + 1 < MAX_CLAIM_ATTEMPTS then Claiming(txn.phase.tries + 1)
    else Answered(Vanished)
  }

  function InPhase(s: State, id: nat, phase: Phase): State
    requires id in s.txns
  {
    s.(txns := s.txns[id := s.txns[id].(phase := phase)])
  }

  /** What the transaction leaves in the table. */
  function Committed(rows: Table, txn: Txn): Table {
    match txn.phase
    case Finished(response) => FinishTable(rows[txn.scope := Pending(txn.digest, txn.now)], txn.scope, response)
    case Released => ReleaseTable(rows[txn.scope := Pending(txn.digest, txn.now)], txn.scope)
    case _ => rows
  }

  function EffectOf(txn: Txn): Effect
    requires txn.phase.Finished?
  {
    Effect(txn.scope, txn.digest, txn.now, txn.phase.response)
  }

  function Next(rules: Rules, s: State, step: Step): State
    requires Enabled(rules, s, step)
  {
    match step
    case Tick(to) => s.(clock := to)
    case Start(id, scope, digest, now) => s.(txns := s.txns[id := Txn(scope, digest, now, Claiming(0))])
    case Insert(id) => InPhase(s, id, AfterInsert(s.rows, s.txns[id]))
    case Lock(id) => InPhase(s, id, AfterLock(s.rows, s.txns[id]))
    case Finish(id, response) => InPhase(s, id, Finished(response))
    case Release(id) => InPhase(s, id, Released)
    case Commit(id) =>
      var txn := s.txns[id];
      State(s.clock, Committed(s.rows, txn), s.txns - {id},
            if txn.phase.Finished? then s.effects + [EffectOf(txn)] else s.effects)
    case Rollback(id) => s.(txns := s.txns - {id})
    case Purge(purged) => s.(rows := s.rows - purged)
  }

  /** The state after `steps`, or None when one of them was not enabled. */
  function Exec(rules: Rules, s: State, steps: seq<Step>): Option<State>
    decreases |steps|
  {
    if steps == [] then Some(s)
    else if Enabled(rules, s, steps[0]) then Exec(rules, Next(rules, s, steps[0]), steps[1..])
    else None
  }

  function Run(rules: Rules, steps: seq<Step>): Option<State> {
    Exec(rules, INIT, steps)
  }

  // --- the invariant ---

  /** The last effect of a key. */
  function Latest(effects: seq<Effect>, scope: Scope): Option<Effect> {
    if effects == [] then None
    else if effects[|effects| - 1].scope == scope then Some(effects[|effects| - 1])
    else Latest(effects[..|effects| - 1], scope)
  }

  function RowOf(e: Effect): Row {
    Row(e.digest, Some(e.response), e.stamp + RETENTION)
  }

  ghost predicate Spaced(rules: Rules, effects: seq<Effect>) {
    forall i: nat, j: nat :: i < j < |effects| && effects[i].scope == effects[j].scope ==>
      effects[i].stamp + rules.Spacing(effects[i].scope.operation) <= effects[j].stamp
  }

  /** Every effect of the key is at least `gap` old at `time`. */
  ghost predicate Aged(effects: seq<Effect>, scope: Scope, gap: real, time: real) {
    forall i: nat :: i < |effects| && effects[i].scope == scope ==> effects[i].stamp + gap <= time
  }

  /** A committed row is the last effect of its key, response and all: none is ever pending. */
  ghost predicate RowsInv(s: State) {
    forall scope :: scope in s.rows ==>
      var last := Latest(s.effects, scope);
      last.Some? && s.rows[scope] == RowOf(last.value)
  }

  ghost predicate GoneInv(rules: Rules, s: State) {
    forall scope :: scope !in s.rows ==> Aged(s.effects, scope, rules.Margin(scope.operation), s.clock)
  }

  ghost predicate TxnInv(rules: Rules, s: State, txn: Txn) {
    && txn.now <= s.clock + rules.lead
    && (Claims(txn) ==>
          && Aged(s.effects, txn.scope, rules.Spacing(txn.scope.operation), txn.now)
          && (txn.scope in s.rows ==> s.rows[txn.scope].expiresAt <= txn.now))
    && (txn.phase.Released? ==> rules.releases(txn.scope.operation))
    && (txn.phase.Answered? && !txn.phase.answer.Vanished? ==>
          && txn.scope in s.rows && !txn.phase.answer.Proceed?
          && txn.phase.answer == AnswerOn(Some(s.rows[txn.scope]), txn.digest, txn.now))
  }

  ghost predicate TxnsInv(rules: Rules, s: State) {
    forall id :: id in s.txns ==> TxnInv(rules, s, s.txns[id])
  }

  /** At most one transaction holds a key. */
  ghost predicate Exclusive(s: State) {
    forall i, j :: i in s.txns && j in s.txns && i != j && Holds(s.txns[i]) && Holds(s.txns[j]) ==>
      s.txns[i].scope != s.txns[j].scope
  }

  ghost predicate Inv(rules: Rules, s: State) {
    RowsInv(s) && GoneInv(rules, s) && TxnsInv(rules, s) && Exclusive(s) && Spaced(rules, s.effects)
  }

  lemma {:induction false} LatestIsOne(effects: seq<Effect>, scope: Scope)
    ensures Latest(effects, scope).None? <==> forall i: nat :: i < |effects| ==> effects[i].scope != scope
    ensures Latest(effects, scope).Some? ==>
              exists k: nat :: k < |effects| && effects[k] == Latest(effects, scope).value
                               && effects[k].scope == scope
                               && forall i: nat :: k < i < |effects| ==> effects[i].scope != scope
  {
    if effects != [] {
      var n := |effects| - 1;
      if effects[n].scope == scope {
        assert effects[n] == Latest(effects, scope).value;
      } else {
        LatestIsOne(effects[..n], scope);
        if Latest(effects, scope).Some? {
          var k: nat :| k < n && effects[..n][k] == Latest(effects, scope).value && effects[k].scope == scope
                        && forall i: nat :: k < i < n ==> effects[..n][i].scope != scope;
          forall i: nat | k < i < |effects| ensures effects[i].scope != scope {
            if i < n { assert effects[..n][i].scope != scope; }
          }
          assert effects[k] == Latest(effects, scope).value;
        }
      }
    }
  }

  /** The last effect is the youngest, so when it is old enough, all are. */
  lemma AgedByLatest(rules: Rules, effects: seq<Effect>, scope: Scope, gap: real, time: real)
    requires rules.Sensible() && Spaced(rules, effects)
    requires var last := Latest(effects, scope); last.None? || last.value.stamp + gap <= time
    ensures Aged(effects, scope, gap, time)
  {
    LatestIsOne(effects, scope);
    if Latest(effects, scope).Some? {
      var k: nat :| k < |effects| && effects[k] == Latest(effects, scope).value && effects[k].scope == scope
                    && forall i: nat :: k < i < |effects| ==> effects[i].scope != scope;
      forall i: nat | i < |effects| && effects[i].scope == scope ensures effects[i].stamp + gap <= time {
        assert i <= k;
      }
    }
  }

  // --- every step keeps the invariant ---

  /** A step that keeps the rows, the effects and everyone's locks need only answer for one transaction. */
  lemma KeepsWithTxn(rules: Rules, s: State, id: nat, txn: Txn)
    requires Inv(rules, s)
    requires TxnInv(rules, s, txn)
    requires Holds(txn) ==> forall i :: i in s.txns && i != id && Holds(s.txns[i]) ==> s.txns[i].scope != txn.scope
    ensures Inv(rules, s.(txns := s.txns[id := txn]))
  {
    hide TxnInv;
    var t := s.(txns := s.txns[id := txn]);
    assert Exclusive(t);
    forall i | i in t.txns ensures TxnInv(rules, t, t.txns[i]) {
      SameForTxn(rules, s, t, t.txns[i]);
      if i != id { assert t.txns[i] == s.txns[i]; }
    }
  }

  lemma SameForTxn(rules: Rules, s: State, t: State, txn: Txn)
    requires s.clock == t.clock && s.rows == t.rows && s.effects == t.effects
    ensures TxnInv(rules, s, txn) <==> TxnInv(rules, t, txn)
  {
  }

  lemma InsertKeeps(rules: Rules, s: State, id: nat)
    requires rules.Sensible() && Inv(rules, s) && Enabled(rules, s, Insert(id))
    ensures Inv(rules, Next(rules, s, Insert(id)))
  {
    var txn := s.txns[id].(phase := AfterInsert(s.rows, s.txns[id]));
    assert TxnInv(rules, s, s.txns[id]);
    assert TxnInv(rules, s, txn);
    forall i | i in s.txns && i != id && Holds(s.txns[i]) && Holds(txn) ensures s.txns[i].scope != txn.scope {
      assert TxnInv(rules, s, s.txns[i]);
    }
    KeepsWithTxn(rules, s, id, txn);
  }

  lemma LockKeeps(rules: Rules, s: State, id: nat)
    requires rules.Sensible() && Inv(rules, s) && Enabled(rules, s, Lock(id))
    ensures Inv(rules, Next(rules, s, Lock(id)))
  {
    var before, txn := s.txns[id], s.txns[id].(phase := AfterLock(s.rows, s.txns[id]));
    assert TxnInv(rules, s, before);
    if txn.phase.Working? { AgedByLatest(rules, s.effects, txn.scope, RETENTION, txn.now); }
    assert TxnInv(rules, s, txn);
    KeepsWithTxn(rules, s, id, txn);
  }

  lemma WorkKeeps(rules: Rules, s: State, id: nat, phase: Phase)
    requires Inv(rules, s) && id in s.txns && s.txns[id].phase.Working?
    requires phase.Finished? || (phase.Released? && rules.releases(s.txns[id].scope.operation))
    ensures Inv(rules, InPhase(s, id, phase))
  {
    assert TxnInv(rules, s, s.txns[id]);
    KeepsWithTxn(rules, s, id, s.txns[id].(phase := phase));
  }

  /** Time, an ending transaction and a purge keep every other transaction's part. */
  lemma TickKeeps(rules: Rules, s: State, to: real)
    requires Inv(rules, s) && s.clock <= to
    ensures Inv(rules, s.(clock := to))
  {
    var t := s.(clock := to);
    forall id | id in t.txns ensures TxnInv(rules, t, t.txns[id]) {
      assert TxnInv(rules, s, s.txns[id]);
    }
  }

  lemma PurgeKeeps(rules: Rules, s: State, purged: set<Scope>)
    requires rules.Sensible() && Inv(rules, s) && Enabled(rules, s, Purge(purged))
    ensures Inv(rules, Next(rules, s, Purge(purged)))
  {
    var t := Next(rules, s, Purge(purged));
    forall id | id in t.txns ensures TxnInv(rules, t, t.txns[id]) {
      assert TxnInv(rules, s, s.txns[id]);
      if Holds(s.txns[id]) { assert s.txns[id].scope in Locked(s); }
    }
    forall scope | scope !in t.rows ensures Aged(t.effects, scope, rules.Margin(scope.operation), t.clock) {
      if scope in s.rows {
        AgedByLatest(rules, s.effects, scope, rules.Margin(scope.operation), s.clock);
      }
    }
  }

  /** Ending a transaction without an effect. */
  lemma EndKeeps(rules: Rules, s: State, id: nat)
    requires Inv(rules, s) && id in s.txns
    ensures Inv(rules, s.(txns := s.txns - {id}))
  {
    hide TxnInv;
    var t := s.(txns := s.txns - {id});
    forall i | i in t.txns ensures TxnInv(rules, t, t.txns[i]) {
      assert TxnInv(rules, s, s.txns[i]);
      SameForTxn(rules, s, t, t.txns[i]);
    }
  }

  lemma ReleasedKeeps(rules: Rules, s: State, id: nat)
    requires rules.Sensible() && Inv(rules, s) && id in s.txns && s.txns[id].phase.Released?
    ensures Inv(rules, Next(rules, s, Commit(id)))
  {
    var t, txn := Next(rules, s, Commit(id)), s.txns[id];
    assert TxnInv(rules, s, txn);
    assert t.rows == s.rows - {txn.scope};
    forall i | i in t.txns ensures TxnInv(rules, t, t.txns[i]) {
      assert TxnInv(rules, s, s.txns[i]);
    }
    forall scope | scope !in t.rows ensures Aged(t.effects, scope, rules.Margin(scope.operation), t.clock) {
      if scope in s.rows {
        AgedByLatest(rules, s.effects, scope, rules.Margin(scope.operation), s.clock);
      }
    }
  }

  lemma AgedOneMore(effects: seq<Effect>, e: Effect, scope: Scope, gap: real, time: real)
    requires Aged(effects, scope, gap, time) && e.scope != scope
    ensures Aged(effects + [e], scope, gap, time)
  {
  }

  lemma SpacedOneMore(rules: Rules, effects: seq<Effect>, e: Effect)
    requires Spaced(rules, effects) && Aged(effects, e.scope, rules.Spacing(e.scope.operation), e.stamp)
    ensures Spaced(rules, effects + [e])
  {
  }

  /** The row of the new last effect, and every other row, is that of the last effect of its key. */
  lemma FinishedRows(s: State, e: Effect)
    requires RowsInv(s)
    ensures RowsInv(s.(rows := s.rows[e.scope := RowOf(e)], effects := s.effects + [e]))
  {
    var effects := s.effects + [e];
    assert effects[..|effects| - 1] == s.effects;
  }

  /** Other transactions do not hold the key, so the new effect is none of theirs. */
  lemma FinishedTxn(rules: Rules, s: State, e: Effect, txn: Txn)
    requires TxnInv(rules, s, txn) && (Holds(txn) ==> txn.scope != e.scope)
    ensures TxnInv(rules, s.(rows := s.rows[e.scope := RowOf(e)], effects := s.effects + [e]), txn)
  {
    hide AnswerOn, RowOf;
    if Claims(txn) { AgedOneMore(s.effects, e, txn.scope, rules.Spacing(txn.scope.operation), txn.now); }
  }

  lemma FinishedKeeps(rules: Rules, s: State, id: nat)
    requires Inv(rules, s) && id in s.txns && s.txns[id].phase.Finished?
    ensures Inv(rules, Next(rules, s, Commit(id)))
  {
    var t, txn := Next(rules, s, Commit(id)), s.txns[id];
    var e := EffectOf(txn);
    assert TxnInv(rules, s, txn);
    assert t == State(s.clock, s.rows[txn.scope := RowOf(e)], s.txns - {id}, s.effects + [e]);
    SpacedOneMore(rules, s.effects, e);
    FinishedRows(s, e);
    hide TxnInv, RowsInv, Spaced, Aged, RowOf;
    var u := s.(rows := s.rows[e.scope := RowOf(e)], effects := s.effects + [e]);
    forall i | i in t.txns ensures TxnInv(rules, t, t.txns[i]) {
      assert TxnInv(rules, s, s.txns[i]);
      FinishedTxn(rules, s, e, s.txns[i]);
      SameForTxn(rules, u, t, s.txns[i]);
    }
    forall scope | scope !in t.rows ensures Aged(t.effects, scope, rules.Margin(scope.operation), t.clock) {
      AgedOneMore(s.effects, e, scope, rules.Margin(scope.operation), s.clock);
    }
    SameRows(u, t);
  }

  lemma SameRows(s: State, t: State)
    requires s.rows == t.rows && s.effects == t.effects
    ensures RowsInv(s) <==> RowsInv(t)
  {
  }

  lemma StepKeeps(rules: Rules, s: State, step: Step)
    requires rules.Sensible() && Inv(rules, s) && Enabled(rules, s, step)
    ensures Inv(rules, Next(rules, s, step))
  {
    hide Inv;
    match step
    case Tick(to) => TickKeeps(rules, s, to);
    case Start(id, scope, digest, now) => KeepsWithTxn(rules, s, id, Txn(scope, digest, now, Claiming(0)));
    case Insert(id) => InsertKeeps(rules, s, id);
    case Lock(id) => LockKeeps(rules, s, id);
    case Finish(id, response) => WorkKeeps(rules, s, id, Finished(response));
    case Release(id) => WorkKeeps(rules, s, id, Released);
    case Commit(id) =>
      if s.txns[id].phase.Finished? { FinishedKeeps(rules, s, id); }
      else if s.txns[id].phase.Released? { ReleasedKeeps(rules, s, id); }
      else { EndKeeps(rules, s, id); }
    case Rollback(id) => EndKeeps(rules, s, id);
    case Purge(purged) => PurgeKeeps(rules, s, purged);
  }

  lemma {:induction false} ExecKeeps(rules: Rules, s: State, steps: seq<Step>)
    requires rules.Sensible() && Inv(rules, s) && Exec(rules, s, steps).Some?
    ensures Inv(rules, Exec(rules, s, steps).value)
    decreases |steps|
  {
    hide Inv, Next, Enabled;
    if steps != [] {
      StepKeeps(rules, s, steps[0]);
      ExecKeeps(rules, Next(rules, s, steps[0]), steps[1..]);
    }
  }

  lemma RunKeeps(rules: Rules, steps: seq<Step>)
    requires rules.Sensible() && Run(rules, steps).Some?
    ensures Inv(rules, Run(rules, steps).value)
  {
    ExecKeeps(rules, INIT, steps);
  }
}
