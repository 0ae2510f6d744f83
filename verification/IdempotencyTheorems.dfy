/** What holds in every run of commands under idempotency keys. */
module IdempotencyTheorems {
  import opened IdempotencyKeys
  import opened IdempotencyRuns

  /** No committed row is pending, so no command is ever told that its request is in progress. */
  lemma NeverInProgress(rules: Rules, steps: seq<Step>)
    requires rules.Sensible() && Run(rules, steps).Some?
    ensures var s := Run(rules, steps).value;
            && (forall scope :: scope in s.rows ==> s.rows[scope].response.Some?)
            && (forall id :: id in s.txns ==> s.txns[id].phase != Answered(InProgress))
  {
    RunKeeps(rules, steps);
    var s := Run(rules, steps).value;
    forall id | id in s.txns ensures s.txns[id].phase != Answered(InProgress) {
      assert TxnInv(rules, s, s.txns[id]);
    }
  }

  /** Two effects of one key were stamped at least the spacing apart. */
  lemma EffectsAreApart(rules: Rules, steps: seq<Step>, i: nat, j: nat)
    requires rules.Sensible() && Run(rules, steps).Some?
    requires i < j < |Run(rules, steps).value.effects|
    requires Run(rules, steps).value.effects[i].scope == Run(rules, steps).value.effects[j].scope
    ensures var effects := Run(rules, steps).value.effects;
            effects[i].stamp + rules.Spacing(effects[i].scope.operation) <= effects[j].stamp
  {
    RunKeeps(rules, steps);
  }

  /** What begin has answered is about the last effect of the key, which is still in retention. */
  lemma AnswersAreAboutTheLastEffect(rules: Rules, steps: seq<Step>, id: nat)
    requires rules.Sensible() && Run(rules, steps).Some?
    requires id in Run(rules, steps).value.txns && Run(rules, steps).value.txns[id].phase.Answered?
    ensures var s := Run(rules, steps).value;
            var txn, answer := s.txns[id], s.txns[id].phase.answer;
            var last := Latest(s.effects, txn.scope);
            !answer.Vanished? ==>
              && last.Some? && txn.now < last.value.stamp + RETENTION
              && answer == (if last.value.digest == txn.digest then Replay(last.value.response) else Reused)
  {
    RunKeeps(rules, steps);
    var s := Run(rules, steps).value;
    assert TxnInv(rules, s, s.txns[id]);
  }

  /**
    While a command's stamp is within the spacing of the last effect of its key, the row of that
    effect is there, so begin can neither claim the key nor find it gone: its INSERT conflicts and
    its SELECT is answered with the stored response, or REUSED for another request.
   */
  lemma WithinSpacing(rules: Rules, steps: seq<Step>, scope: Scope, digest: string, now: real, tries: nat)
    requires rules.Sensible() && Run(rules, steps).Some?
    requires Run(rules, steps).value.clock - rules.lag <= now
    requires var last := Latest(Run(rules, steps).value.effects, scope);
             last.Some? && now < last.value.stamp + rules.Spacing(scope.operation)
    ensures var s := Run(rules, steps).value;
            var last := Latest(s.effects, scope).value;
            && AfterInsert(s.rows, Txn(scope, digest, now, Claiming(tries))).Conflicted?
            && AfterLock(s.rows, Txn(scope, digest, now, Conflicted(tries))) ==
               Answered(if last.digest == digest then Replay(last.response) else Reused)
  {
    RunKeeps(rules, steps);
    var s := Run(rules, steps).value;
    LatestIsOne(s.effects, scope);
    var k: nat :| k < |s.effects| && s.effects[k] == Latest(s.effects, scope).value && s.effects[k].scope == scope
                  && forall i: nat :: k < i < |s.effects| ==> s.effects[i].scope != scope;
    assert s.effects[k].stamp + rules.Margin(scope.operation) > s.clock;
  }

  /**
    Once the last effect of its key is out of retention, a command claims the key, row or no row; when
    the row vanishes under it, it tries again, three times in all.
   */
  lemma PastRetentionProceeds(rules: Rules, steps: seq<Step>, scope: Scope, digest: string, now: real, tries: nat)
    requires rules.Sensible() && Run(rules, steps).Some?
    requires var last := Latest(Run(rules, steps).value.effects, scope);
             last.Some? ==> last.value.stamp + RETENTION <= now
    ensures var s := Run(rules, steps).value;
            if scope in s.rows then AfterLock(s.rows, Txn(scope, digest, now, Conflicted(tries))) == Working
            else
              && AfterInsert(s.rows, Txn(scope, digest, now, Claiming(tries))) == Working
              && AfterLock(s.rows, Txn(scope, digest, now, Conflicted(tries))) ==
                 (if tries < 2 then Claiming(tries + 1) else Answered(Vanished))
  {
    RunKeeps(rules, steps);
  }

  /** A purge may take exactly the rows out of retention for more than the grace period that no one holds. */
  lemma PurgeTakesTheOld(rules: Rules, steps: seq<Step>, purged: set<Scope>)
    requires rules.Sensible() && Run(rules, steps).Some?
    ensures var s := Run(rules, steps).value;
            Enabled(rules, s, Purge(purged)) <==>
            forall scope :: scope in purged ==>
              && scope in s.rows && Latest(s.effects, scope).Some?
              && Latest(s.effects, scope).value.stamp + RETENTION + PURGE_GRACE < s.clock
              && forall id :: id in s.txns && s.txns[id].scope == scope ==> !Holds(s.txns[id])
  {
    hide Exec;
    RunKeeps(rules, steps);
    var s := Run(rules, steps).value;
    forall scope
      ensures scope in Locked(s) <==> exists id :: id in s.txns && s.txns[id].scope == scope && Holds(s.txns[id])
    {
    }
  }

  // --- a key that is only ever used for one request ---

  /** Every request under the key is the same one. */
  ghost predicate OneRequest(steps: seq<Step>, scope: Scope, digest: string) {
    forall i: nat :: i < |steps| && steps[i].Start? && steps[i].scope == scope ==> steps[i].digest == digest
  }

  ghost predicate Faithful(s: State, scope: Scope, digest: string) {
    && (forall id :: id in s.txns && s.txns[id].scope == scope ==> s.txns[id].digest == digest)
    && (forall i: nat :: i < |s.effects| && s.effects[i].scope == scope ==> s.effects[i].digest == digest)
  }

  lemma FaithfulStep(rules: Rules, s: State, step: Step, scope: Scope, digest: string)
    requires Enabled(rules, s, step) && Faithful(s, scope, digest)
    requires step.Start? && step.scope == scope ==> step.digest == digest
    ensures Faithful(Next(rules, s, step), scope, digest)
  {
    hide AfterInsert, AfterLock, Committed;
    var t := Next(rules, s, step);
    forall i: nat | i < |t.effects| && t.effects[i].scope == scope ensures t.effects[i].digest == digest {
      if i < |s.effects| { assert t.effects[i] == s.effects[i]; }
    }
  }

  lemma {:induction false} FaithfulRun(rules: Rules, s: State, steps: seq<Step>, scope: Scope, digest: string)
    requires Exec(rules, s, steps).Some? && Faithful(s, scope, digest) && OneRequest(steps, scope, digest)
    ensures Faithful(Exec(rules, s, steps).value, scope, digest)
    decreases |steps|
  {
    hide Next, Enabled, Faithful;
    if steps != [] {
      FaithfulStep(rules, s, steps[0], scope, digest);
      FaithfulRun(rules, Next(rules, s, steps[0]), steps[1..], scope, digest);
    }
  }

  /** A client that uses a key for one request only is never told IDEMPOTENCY_KEY_REUSED under it. */
  lemma NeverReused(rules: Rules, steps: seq<Step>, digest: string, id: nat)
    requires rules.Sensible() && Run(rules, steps).Some? && id in Run(rules, steps).value.txns
    requires OneRequest(steps, Run(rules, steps).value.txns[id].scope, digest)
    ensures Run(rules, steps).value.txns[id].phase != Answered(Reused)
  {
    var s := Run(rules, steps).value;
    if s.txns[id].phase == Answered(Reused) {
      FaithfulRun(rules, INIT, steps, s.txns[id].scope, digest);
      AnswersAreAboutTheLastEffect(rules, steps, id);
      LatestIsOne(s.effects, s.txns[id].scope);
    }
  }

  // --- exactly when retention is kept ---

  ghost predicate InRetention(effects: seq<Effect>, operation: string) {
    forall i: nat, j: nat ::
      i < j < |effects| && effects[i].scope == effects[j].scope && effects[i].scope.operation == operation ==>
        effects[i].stamp + RETENTION <= effects[j].stamp
  }

  /** The promise for one operation: within one retention period of an effect, its key has no second one. */
  ghost predicate RetentionKept(rules: Rules, operation: string) {
    forall steps :: Run(rules, steps).Some? ==> InRetention(Run(rules, steps).value.effects, operation)
  }

  predicate ClocksGoodEnough(rules: Rules, operation: string) {
    if rules.releases(operation) then rules.lag + rules.lead <= 0.0 else rules.lag <= PURGE_GRACE
  }

  function KeyOf(operation: string): Scope {
    Scope(0, "", operation, "")
  }

  const DONE := Response(200, "")

  /** A command that starts, finds no row, finishes and commits. */
  function Fresh(key: Scope, id: nat, now: real): seq<Step> {
    [Start(id, key, "", now), Insert(id), Finish(id, DONE), Commit(id)]
  }

  /** A command that finds an expired row and commits a rejection. */
  function Rejection(key: Scope, id: nat, now: real): seq<Step> {
    [Start(id, key, "", now), Insert(id), Lock(id), Release(id), Commit(id)]
  }

  lemma Then(rules: Rules, s: State, step: Step, rest: seq<Step>, t: State)
    requires Enabled(rules, s, step) && Next(rules, s, step) == t
    ensures Exec(rules, s, [step] + rest) == Exec(rules, t, rest)
  {
    hide Enabled, Next;
    assert ([step] + rest)[1..] == rest;
  }

  /** `s` with one transaction open. */
  function With(s: State, key: Scope, id: nat, now: real, phase: Phase): State {
    s.(txns := map[id := Txn(key, "", now, phase)])
  }

  lemma Begins(rules: Rules, s: State, key: Scope, id: nat, now: real, rest: seq<Step>)
    requires s.txns == map[]
    requires s.clock - rules.lag <= now <= s.clock + rules.lead
    ensures Exec(rules, s, [Start(id, key, "", now)] + ([Insert(id)] + rest)) ==
            Exec(rules, With(s, key, id, now, if key in s.rows then Conflicted(0) else Working), rest)
  {
    hide Exec;
    var phase := if key in s.rows then Conflicted(0) else Working;
    Then(rules, s, Start(id, key, "", now), [Insert(id)] + rest, With(s, key, id, now, Claiming(0)));
    Then(rules, With(s, key, id, now, Claiming(0)), Insert(id), rest, With(s, key, id, now, phase));
  }

  lemma FreshRuns(rules: Rules, s: State, key: Scope, id: nat, now: real, rest: seq<Step>)
    requires s.txns == map[] && key !in s.rows
    requires s.clock - rules.lag <= now <= s.clock + rules.lead
    ensures var e := Effect(key, "", now, DONE);
            Exec(rules, s, Fresh(key, id, now) + rest) ==
            Exec(rules, State(s.clock, s.rows[key := RowOf(e)], map[], s.effects + [e]), rest)
  {
    hide Exec;
    var e := Effect(key, "", now, DONE);
    var end := [Commit(id)] + rest;
    var t := State(s.clock, s.rows[key := RowOf(e)], map[], s.effects + [e]);
    assert Fresh(key, id, now) + rest == [Start(id, key, "", now)] + ([Insert(id)] + ([Finish(id, DONE)] + end));
    Begins(rules, s, key, id, now, [Finish(id, DONE)] + end);
    Then(rules, With(s, key, id, now, Working), Finish(id, DONE), end, With(s, key, id, now, Finished(DONE)));
    Then(rules, With(s, key, id, now, Finished(DONE)), Commit(id), rest, t);
  }

  lemma RejectionRuns(rules: Rules, s: State, key: Scope, id: nat, now: real, rest: seq<Step>)
    requires s.txns == map[] && key in s.rows && s.rows[key].expiresAt <= now && rules.releases(key.operation)
    requires s.clock - rules.lag <= now <= s.clock + rules.lead
    ensures Exec(rules, s, Rejection(key, id, now) + rest) == Exec(rules, s.(rows := s.rows - {key}), rest)
  {
    hide Exec;
    var end := [Release(id)] + ([Commit(id)] + rest);
    assert Rejection(key, id, now) + rest == [Start(id, key, "", now)] + ([Insert(id)] + ([Lock(id)] + end));
    Begins(rules, s, key, id, now, [Lock(id)] + end);
    Then(rules, With(s, key, id, now, Conflicted(0)), Lock(id), end, With(s, key, id, now, Working));
    Then(rules, With(s, key, id, now, Working), Release(id), [Commit(id)] + rest, With(s, key, id, now, Released));
    Then(rules, With(s, key, id, now, Released), Commit(id), rest, s.(rows := s.rows - {key}));
  }

  /** After one command at time 0: its row, its effect. */
  function Once(key: Scope): State {
    State(0.0, map[key := RowOf(Effect(key, "", 0.0, DONE))], map[], [Effect(key, "", 0.0, DONE)])
  }

  lemma OnceRuns(rules: Rules, key: Scope, rest: seq<Step>)
    requires rules.Sensible()
    ensures Run(rules, Fresh(key, 0, 0.0) + rest) == Exec(rules, Once(key), rest)
  {
    hide Exec, Fresh;
    FreshRuns(rules, INIT, key, 0, 0.0, rest);
    var e := Effect(key, "", 0.0, DONE);
    assert State(INIT.clock, INIT.rows[key := RowOf(e)], map[], INIT.effects + [e]) == Once(key);
  }

  /** A stamp more than the grace period behind lets a purge shorten retention. */
  lemma LateInsert(rules: Rules, key: Scope)
    requires rules.Sensible() && !rules.releases(key.operation) && PURGE_GRACE < rules.lag
    ensures !RetentionKept(rules, key.operation)
  {
    hide Exec, Fresh, Run, RetentionKept;
    var d := (rules.lag - PURGE_GRACE) / 2.0;
    var clock, now := RETENTION + PURGE_GRACE + d, RETENTION - d;
    var last := Fresh(key, 1, now) + [];
    var rest := [Tick(clock)] + ([Purge({key})] + last);
    OnceRuns(rules, key, rest);
    Then(rules, Once(key), Tick(clock), [Purge({key})] + last, Once(key).(clock := clock));
    Then(rules, Once(key).(clock := clock), Purge({key}), last, Once(key).(clock := clock, rows := map[]));
    FreshRuns(rules, Once(key).(clock := clock, rows := map[]), key, 1, now, []);
    NotKept(rules, key, Fresh(key, 0, 0.0) + rest, now, clock);
  }

  /** A rejection by a fast clock frees the key for a slow one. */
  lemma FastRejection(rules: Rules, key: Scope)
    requires rules.Sensible() && rules.releases(key.operation) && 0.0 < rules.lag + rules.lead
    ensures !RetentionKept(rules, key.operation)
  {
    hide Exec, Fresh, Rejection, Run, RetentionKept;
    var clock, now := RETENTION - rules.lead, RETENTION - rules.lead - rules.lag;
    var last := Fresh(key, 2, now) + [];
    var rest := [Tick(clock)] + (Rejection(key, 1, RETENTION) + last);
    var later := Once(key).(clock := clock);
    OnceRuns(rules, key, rest);
    Then(rules, Once(key), Tick(clock), Rejection(key, 1, RETENTION) + last, later);
    RejectionRuns(rules, later, key, 1, RETENTION, last);
    assert later.(rows := later.rows - {key}) == later.(rows := map[]);
    FreshRuns(rules, later.(rows := map[]), key, 2, now, []);
    NotKept(rules, key, Fresh(key, 0, 0.0) + rest, now, clock);
  }

  lemma NotKept(rules: Rules, key: Scope, steps: seq<Step>, now: real, clock: real)
    requires now < RETENTION
    requires var s, e := Once(key).(clock := clock, rows := map[]), Effect(key, "", now, DONE);
             Run(rules, steps) == Exec(rules, State(s.clock, s.rows[key := RowOf(e)], map[], s.effects + [e]), [])
    ensures !RetentionKept(rules, key.operation)
  {
    var effects := Run(rules, steps).value.effects;
    assert effects[0].scope == effects[1].scope;
    assert !InRetention(effects, key.operation);
  }

  /**
    An operation keeps retention in every run exactly when the clocks are good enough for it: when
    its commands never commit a rejection, a stamp may be the grace period old, whatever other
    operations do; for apply, whose commands may, not at all.
   */
  lemma RetentionExactly(rules: Rules, operation: string)
    requires rules.Sensible()
    ensures RetentionKept(rules, operation) <==> ClocksGoodEnough(rules, operation)
  {
    if ClocksGoodEnough(rules, operation) {
      forall steps | Run(rules, steps).Some? ensures InRetention(Run(rules, steps).value.effects, operation) {
        RunKeeps(rules, steps);
      }
    } else if rules.releases(operation) {
      FastRejection(rules, KeyOf(operation));
    } else {
      LateInsert(rules, KeyOf(operation));
    }
  }
}
