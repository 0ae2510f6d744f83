/**
  The browser's half of the protocol: one key per submission attempt. A fingerprint is what
  `JSON.stringify` gives (None for `undefined`); UUIDs are numbers that never repeat.
 */
module SubmissionKeys {
  import opened Basics
  import opened IdempotencyKeys
  import Canonical
  import IdempotencyRuns
  import IdempotencyTheorems

  type Fingerprint = Option<string>

  datatype Held = Held(key: nat, fingerprint: Fingerprint)

  /** The ref's content, and how many UUIDs were drawn. */
  datatype Hook = Hook(current: Option<Held>, issued: nat)

  datatype Call = KeyFor(fingerprint: Fingerprint) | Reset

  datatype TypeError = NoAttempt

  predicate Unchanged(h: Hook, fingerprint: Fingerprint) {
    (if h.current.Some? then h.current.value.fingerprint else None) == fingerprint
  }

  function After(h: Hook, call: Call): Hook {
    match call
    case Reset => h.(current := None)
    case KeyFor(fingerprint) =>
      if Unchanged(h, fingerprint) then h else Hook(Some(Held(h.issued, fingerprint)), h.issued + 1)
  }

  /** The hook after the first calls. */
  function HookAt(calls: seq<Call>, n: nat): Hook
    requires n <= |calls|
  {
    if n == 0 then Hook(None, 0) else After(HookAt(calls, n - 1), calls[n - 1])
  }

  /** What call `k` returns; reading a key from an empty ref throws. */
  function KeyOf(calls: seq<Call>, k: nat): Result<nat, TypeError>
    requires k < |calls| && calls[k].KeyFor?
  {
    var h := HookAt(calls, k + 1);
    if h.current.Some? then Success(h.current.value.key) else Failure(NoAttempt)
  }

  class SubmissionKey {
    var current: Option<Held>
    var issued: nat

    function State(): Hook
      reads this
    {
      Hook(current, issued)
    }

    constructor ()
      ensures State() == Hook(None, 0)
    {
      current, issued := None, 0;
    }

    method NewKeyFor(fingerprint: Fingerprint) returns (key: Result<nat, TypeError>)
      modifies this
      ensures State() == After(old(State()), KeyFor(fingerprint))
      ensures key == if current.Some? then Success(current.value.key) else Failure(NoAttempt)
    {
      var held: Fingerprint := if current.Some? then current.value.fingerprint else None;
      if held != fingerprint {
        current, issued := Some(Held(issued, fingerprint)), issued + 1;
      }
      if current.None? { return Failure(NoAttempt); }
      return Success(current.value.key);
    }

    method Clear()
      modifies this
      ensures State() == After(old(State()), Reset)
    {
      current := None;
    }
  }

  predicate HookInv(h: Hook) {
    h.current.Some? ==> h.current.value.key < h.issued
  }

  lemma {:induction false} HookKeeps(calls: seq<Call>, n: nat)
    requires n <= |calls|
    ensures HookInv(HookAt(calls, n))
  {
    if n > 0 { HookKeeps(calls, n - 1); }
  }

  /** A successful call returns the key it holds, for its own fingerprint. */
  lemma HeldAfter(calls: seq<Call>, k: nat)
    requires k < |calls| && calls[k].KeyFor?
    ensures KeyOf(calls, k).Success? ==>
        HookAt(calls, k + 1).current == Some(Held(KeyOf(calls, k).value, calls[k].fingerprint))
    ensures KeyOf(calls, k).Failure? <==> calls[k].fingerprint.None? && HookAt(calls, k).current.None?
  {
  }

  /** All calls from `i` to `j` ask for the fingerprint that `i` asks for. */
  predicate SameAttempt(calls: seq<Call>, i: nat, j: nat)
    requires i <= j < |calls|
  {
    forall k: nat :: i <= k <= j ==> calls[k] == calls[i]
  }

  lemma {:induction false} KeepsKey(calls: seq<Call>, i: nat, j: nat)
    requires i <= j < |calls| && calls[i].KeyFor? && KeyOf(calls, i).Success? && SameAttempt(calls, i, j)
    ensures HookAt(calls, j + 1) == HookAt(calls, i + 1)
    decreases j
  {
    HeldAfter(calls, i);
    if i < j {
      assert SameAttempt(calls, i, j - 1);
      KeepsKey(calls, i, j - 1);
      assert calls[j] == calls[i];
    }
  }

  /** Once the attempt is over, its key is never held again. */
  lemma {:induction false} NeverHeldAgain(calls: seq<Call>, i: nat, j: nat, key: nat)
    requires i <= j <= |calls|
    requires var h := HookAt(calls, i); key < h.issued && (h.current.Some? ==> h.current.value.key != key)
    ensures var h := HookAt(calls, j); key < h.issued && (h.current.Some? ==> h.current.value.key != key)
    decreases j
  {
    if i < j { NeverHeldAgain(calls, i, j - 1, key); }
  }

  lemma FirstOther(calls: seq<Call>, i: nat, j: nat) returns (k: nat)
    requires i <= j < |calls| && !SameAttempt(calls, i, j)
    ensures i < k <= j && calls[k] != calls[i] && SameAttempt(calls, i, k - 1)
  {
    k := i + 1;
    while calls[k] == calls[i]
      invariant i < k <= j && SameAttempt(calls, i, k - 1)
      decreases j - k
    {
      assert SameAttempt(calls, i, k);
      k := k + 1;
    }
  }

  /**
    Two calls get the same key exactly when every call between them, both included, asked for
    the same payload: a changed payload or a reset always ends the attempt, nothing else does.
   */
  lemma SameKeyExactly(calls: seq<Call>, i: nat, j: nat)
    requires i <= j < |calls| && calls[i].KeyFor? && calls[j].KeyFor?
    requires KeyOf(calls, i).Success? && KeyOf(calls, j).Success?
    ensures KeyOf(calls, i) == KeyOf(calls, j) <==> SameAttempt(calls, i, j)
  {
    if SameAttempt(calls, i, j) {
      KeepsKey(calls, i, j);
    } else {
      var k := FirstOther(calls, i, j);
      KeepsKey(calls, i, k - 1);
      HookKeeps(calls, i + 1);
      HeldAfter(calls, i);
      NeverHeldAgain(calls, k + 1, j + 1, KeyOf(calls, i).value);
    }
  }

  // --- with the server ---

  /** UUIDs of different hooks never coincide either. */
  function KeyText(hook: nat, key: nat): string {
    Digits(hook) + "-" + Digits(key)
  }

  lemma {:induction false} SplitTells(a: string, b: string, c: string, d: string)
    requires a + "-" + b == c + "-" + d && '-' !in a && '-' !in c
    ensures a == c && b == d
  {
    var s := a + "-" + b;
    assert s == c + "-" + d;
    assert forall i: nat :: i < |a| ==> s[i] == a[i] != '-';
    assert forall i: nat :: i < |c| ==> s[i] == c[i] != '-';
    assert s[|a|] == '-' && s[|c|] == '-';
    assert |a| == |c|;
    assert a == s[..|a|] && c == s[..|c|] && b == s[|a| + 1..] && d == s[|c| + 1..];
  }

  lemma KeyTextTells(hook: nat, key: nat, hook2: nat, key2: nat)
    requires KeyText(hook, key) == KeyText(hook2, key2)
    ensures hook == hook2 && key == key2
  {
    Canonical.DigitsAreNumbers(hook);
    Canonical.DigitsAreNumbers(hook2);
    hide Digits;
    SplitTells(Digits(hook), Digits(key), Digits(hook2), Digits(key2));
    Canonical.DigitsTell(hook, hook2);
    Canonical.DigitsTell(key, key2);
  }

  predicate Keyed(calls: seq<Call>, k: nat) {
    k < |calls| && calls[k].KeyFor? && KeyOf(calls, k).Success?
  }

  /** The step sends the content that call `k` of hook `h` fingerprinted, under the key it returned. */
  ghost predicate SentBy(step: IdempotencyRuns.Step, hooks: seq<seq<Call>>, h: nat, k: nat,
                         digestOf: Fingerprint -> string) {
    && step.Start? && h < |hooks| && Keyed(hooks[h], k)
    && step.scope.key == KeyText(h, KeyOf(hooks[h], k).value)
    && step.digest == digestOf(hooks[h][k].fingerprint)
  }

  /** Requests of the same user for the same operation. */
  predicate SameClient(a: Scope, b: Scope) {
    a.organization == b.organization && a.actor == b.actor && a.operation == b.operation
  }

  ghost predicate Hooked(steps: seq<IdempotencyRuns.Step>, scope: Scope, hooks: seq<seq<Call>>,
                         digestOf: Fingerprint -> string) {
    forall i: nat :: i < |steps| && steps[i].Start? && SameClient(steps[i].scope, scope) ==>
      exists h: nat, k: nat :: SentBy(steps[i], hooks, h, k, digestOf)
  }

  /** One key, one request. */
  lemma SameKeySameDigest(a: IdempotencyRuns.Step, b: IdempotencyRuns.Step, hooks: seq<seq<Call>>,
                          digestOf: Fingerprint -> string)
    requires exists h: nat, k: nat :: SentBy(a, hooks, h, k, digestOf)
    requires exists h: nat, k: nat :: SentBy(b, hooks, h, k, digestOf)
    requires a.scope.key == b.scope.key
    ensures a.digest == b.digest
  {
    hide HookAt, KeyText;
    var h: nat, k: nat :| SentBy(a, hooks, h, k, digestOf);
    var g: nat, j: nat :| SentBy(b, hooks, g, j, digestOf);
    KeyTextTells(h, KeyOf(hooks[h], k).value, g, KeyOf(hooks[g], j).value);
    if k <= j { SameKeyExactly(hooks[h], k, j); } else { SameKeyExactly(hooks[h], j, k); }
  }

  /**
    A client that takes every key of an operation from the hook, in any number of open pages, for
    requests determined by the payload fingerprinted, is never told IDEMPOTENCY_KEY_REUSED there,
    whatever all other clients send and however the requests interleave.
   */
  lemma HookedClientsAreNeverRefused(rules: IdempotencyRuns.Rules, steps: seq<IdempotencyRuns.Step>,
                                     hooks: seq<seq<Call>>, digestOf: Fingerprint -> string, id: nat)
    requires rules.Sensible() && IdempotencyRuns.Run(rules, steps).Some?
    requires id in IdempotencyRuns.Run(rules, steps).value.txns
    requires Hooked(steps, IdempotencyRuns.Run(rules, steps).value.txns[id].scope, hooks, digestOf)
    ensures IdempotencyRuns.Run(rules, steps).value.txns[id].phase != IdempotencyRuns.Answered(Reused)
  {
    hide HookAt, KeyText, IdempotencyRuns.Exec, SentBy;
    var scope := IdempotencyRuns.Run(rules, steps).value.txns[id].scope;
    var digest := "";
    if i: nat :| i < |steps| && steps[i].Start? && steps[i].scope == scope {
      digest := steps[i].digest;
      forall j: nat | j < |steps| && steps[j].Start? && steps[j].scope == scope ensures steps[j].digest == digest {
        SameKeySameDigest(steps[i], steps[j], hooks, digestOf);
      }
    }
    IdempotencyTheorems.NeverReused(rules, steps, digest, id);
  }
}
