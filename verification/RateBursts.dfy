/** Exactly how many calls a bucket admits at one moment, from what its key had left and how long it was idle. */
module RateBursts {
  import opened Basics
  import opened RateLimit

  /** What time `d` brings: `limit` per window. */
  function Brought(b: Bucket, d: real): real {
    d * b.limit as real / b.window
  }

  /** What a key with `tokens` left at `last` may take at `now`: that much more, `limit` at most. */
  function Allowance(b: Bucket, tokens: real, last: real, now: real): real {
    var grown := tokens + Brought(b, now - last);
    if grown <= b.limit as real then grown else b.limit as real
  }

  /** The same for what the dictionary knows of the key; an unknown one may take all of its limit. */
  function AllowanceOf(state: seq<Entry>, b: Bucket, k: Key, now: real): real {
    match Find(state, k)
    case None => b.limit as real
    case Some(e) => Allowance(b, e.tokens, e.last, now)
  }

  lemma GainIsPerWindow(b: Bucket, d: real)
    ensures Gain(b, d) == Brought(b, d)
  {
    GainPerWindow(b, d);
  }

  lemma AvailableIsAllowance(state: seq<Entry>, b: Bucket, k: Key, now: real)
    requires EntryOk(state, b, k, now)
    ensures Available(state, b, k, now) == AllowanceOf(state, b, k, now)
    ensures 0.0 <= AllowanceOf(state, b, k, now) <= b.limit as real
  {
    hide Gain, Brought;
    AvailableGrowth(state, b, k, now, now);
    GainGrows(b, 0.0);
    if Find(state, k).Some? { GainIsPerWindow(b, now - Find(state, k).value.last); }
  }

  /** `n` calls alike at one moment. */
  function Burst(c: Call, n: nat): seq<Call> {
    if n == 0 then [] else [c] + Burst(c, n - 1)
  }

  /** Of a burst, each whole token admits one call and nothing else does. */
  lemma {:induction false} BurstTakesTokens(state: seq<Entry>, max: nat, c: Call, n: nat)
    requires max > 0 && EntryOk(state, c.bucket, KeyOf(c), c.now)
    ensures Admitted(state, max, Burst(c, n), KeyOf(c)) ==
            Min(n, Available(state, c.bucket, KeyOf(c), c.now).Floor)
    decreases n
  {
    hide Available, After, Answer, EntryOk;
    var b, k := c.bucket, KeyOf(c);
    var tokens := Available(state, b, k, c.now);
    AvailableGrowth(state, b, k, c.now, c.now);
    if n > 0 {
      assert Burst(c, n)[1..] == Burst(c, n - 1);
      CallSpends(state, max, c, b, k, c.now);
      OwnCallKeeps(state, max, c);
      AdmitsOnAToken(state, c);
      BurstTakesTokens(After(state, max, c), max, c, n - 1);
      assert tokens >= 1.0 ==> (tokens - 1.0).Floor == tokens.Floor - 1;
    }
  }

  lemma OwnCallKeeps(state: seq<Entry>, max: nat, c: Call)
    requires max > 0
    ensures !Evicts(state, max, c, KeyOf(c))
  {
    EntriesAfter(state, max, c, KeyOf(c));
  }

  lemma AdmitsOnAToken(state: seq<Entry>, c: Call)
    ensures AdmitsOne(state, c, KeyOf(c)) == if Available(state, c.bucket, KeyOf(c), c.now) >= 1.0 then 1 else 0
  {
  }

  /** Of `n` calls at one moment exactly as many are admitted as the key's allowance has whole tokens. */
  lemma BurstIsExact(state: seq<Entry>, max: nat, c: Call, n: nat)
    requires max > 0 && EntryOk(state, c.bucket, KeyOf(c), c.now)
    ensures Admitted(state, max, Burst(c, n), KeyOf(c)) ==
            Min(n, AllowanceOf(state, c.bucket, KeyOf(c), c.now).Floor)
  {
    AvailableIsAllowance(state, c.bucket, KeyOf(c), c.now);
    BurstTakesTokens(state, max, c, n);
  }

  // --- after an idle time ---

  predicate NotUsed(calls: seq<Call>, k: Key) {
    forall c :: c in calls ==> KeyOf(c) != k
  }

  /** Calls for other keys leave the entry of `k` as it is, unless they evict it. */
  lemma {:induction false} IdleKeepsEntry(state: seq<Entry>, max: nat, idle: seq<Call>, k: Key)
    requires NotUsed(idle, k) && Evictions(state, max, idle, k) == 0
    ensures Find(Run(state, max, idle), k) == Find(state, k)
    decreases |idle|
  {
    hide After;
    if idle != [] {
      EntriesAfter(state, max, idle[0], k);
      IdleKeepsEntry(After(state, max, idle[0]), max, idle[1..], k);
    }
  }

  /**
    However busy others are: when `k` had `e.tokens` left at `e.last` and was then neither used nor
    evicted, of `n` calls for it at `c.now` exactly as many are admitted as its allowance has whole
    tokens by then.
   */
  lemma BurstAfterIdleIsExact(state: seq<Entry>, max: nat, idle: seq<Call>, c: Call, n: nat, e: Entry)
    requires max > 0 && Find(state, KeyOf(c)) == Some(e) && 0.0 <= e.tokens <= c.bucket.limit as real && e.last <= c.now
    requires NotUsed(idle, KeyOf(c)) && Evictions(state, max, idle, KeyOf(c)) == 0
    ensures Admitted(Run(state, max, idle), max, Burst(c, n), KeyOf(c)) ==
            Min(n, Allowance(c.bucket, e.tokens, e.last, c.now).Floor)
  {
    IdleKeepsEntry(state, max, idle, KeyOf(c));
    BurstIsExact(Run(state, max, idle), max, c, n);
  }

  lemma OneWindow(b: Bucket)
    ensures Gain(b, b.window) == b.limit as real
  {
  }

  lemma WholeLimit(limit: int)
    ensures (limit as real).Floor == limit
  {
  }

  /** After an idle window the next `limit` calls are all admitted, and no more at that moment. */
  lemma IdleWindowRefillsAll(state: seq<Entry>, max: nat, idle: seq<Call>, c: Call, n: nat, e: Entry)
    requires max > 0 && Find(state, KeyOf(c)) == Some(e) && 0.0 <= e.tokens <= c.bucket.limit as real
    requires NotUsed(idle, KeyOf(c)) && Evictions(state, max, idle, KeyOf(c)) == 0
    requires e.last + c.bucket.window <= c.now
    ensures Admitted(Run(state, max, idle), max, Burst(c, n), KeyOf(c)) == Min(n, c.bucket.limit)
  {
    hide Gain, Brought, Run, Admitted, Evictions;
    var b := c.bucket;
    BurstAfterIdleIsExact(state, max, idle, c, n, e);
    GainIsPerWindow(b, c.now - e.last);
    GainIsPerWindow(b, b.window);
    GainAdds(b, b.window, c.now - e.last - b.window);
    GainGrows(b, c.now - e.last - b.window);
    assert b.window + (c.now - e.last - b.window) == c.now - e.last;
    OneWindow(b);
    assert Allowance(b, e.tokens, e.last, c.now) == b.limit as real;
    WholeLimit(b.limit);
  }
}
