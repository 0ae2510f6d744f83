/**
  The in-memory token buckets and their least-recently-used bound.
  Tokens and times are exact reals; the ordered dictionary is a sequence of
  entries with distinct keys, least recently used first.
 */
module RateLimit {
  import opened Basics

  type Key = (string, string)  // bucket name, identity

  datatype RawBucket = RawBucket(name: string, limit: int, window: real, refill: real)

  /** Every configured bucket allows something, has a positive window and refills `limit` tokens in it. */
  type Bucket = b: RawBucket |
    b.limit >= 1 && b.window > 0.0 && b.refill > 0.0 && b.refill * b.window == b.limit as real
    witness RawBucket("", 1, 1.0, 1.0)

  const BUCKETS: seq<Bucket> := [
    RawBucket("analysis_create", 10, 60.0, 10.0 / 60.0),
    RawBucket("document_upload", 10, 600.0, 10.0 / 600.0),
    RawBucket("import_upload", 10, 600.0, 10.0 / 600.0),
    RawBucket("search", 60, 60.0, 1.0),
    RawBucket("note_create", 30, 60.0, 0.5),
    RawBucket("auth_login", 20, 60.0, 20.0 / 60.0)]

  const DEFAULT_MAX_ENTRIES := 50000

  datatype Entry = Entry(key: Key, tokens: real, last: real)

  datatype Call = Call(bucket: Bucket, identity: string, now: real)

  function KeyOf(c: Call): Key {
    (c.bucket.name, c.identity)
  }

  function Full(b: Bucket): real {
    b.limit as real
  }

  /** Tokens that time `d` brings. */
  function Gain(b: Bucket, d: real): real {
    d * b.refill
  }

  function Refill(b: Bucket, tokens: real, last: real, now: real): real {
    MinReal(Full(b), tokens + Gain(b, MaxReal(0.0, now - last)))
  }

  function Find(state: seq<Entry>, key: Key): Option<Entry> {
    if state == [] then None
    else if state[|state| - 1].key == key then Some(state[|state| - 1])
    else Find(state[..|state| - 1], key)
  }

  function Without(state: seq<Entry>, key: Key): seq<Entry> {
    if state == [] then []
    else if state[|state| - 1].key == key then Without(state[..|state| - 1], key)
    else Without(state[..|state| - 1], key) + [state[|state| - 1]]
  }

  /** The last `n` elements. */
  function Newest<T>(s: seq<T>, n: nat): seq<T> {
    if s == [] || n == 0 then [] else Newest(s[..|s| - 1], n - 1) + [s[|s| - 1]]
  }

  /** Tokens the bucket of `key` holds at time `now`; a key the dictionary does not know has a full bucket. */
  function Available(state: seq<Entry>, b: Bucket, key: Key, now: real): real {
    match Find(state, key)
    case None => Refill(b, Full(b), now, now)
    case Some(e) => Refill(b, e.tokens, e.last, now)
  }

  /** The seconds until `tokens` have grown to one. */
  function Wait(b: Bucket, tokens: real): real {
    (1.0 - tokens) / b.refill
  }

  /** The call's answer: none when admitted, otherwise the seconds until a token is there. */
  function Answer(state: seq<Entry>, c: Call): Option<real> {
    var tokens := Available(state, c.bucket, KeyOf(c), c.now);
    if tokens >= 1.0 then None else Some(Wait(c.bucket, tokens))
  }

  function Spent(state: seq<Entry>, c: Call): Entry {
    var tokens := Available(state, c.bucket, KeyOf(c), c.now);
    Entry(KeyOf(c), if tokens >= 1.0 then tokens - 1.0 else tokens, c.now)
  }

  function After(state: seq<Entry>, max: nat, c: Call): seq<Entry> {
    Newest(Without(state, KeyOf(c)) + [Spent(state, c)], max)
  }

  function Keys(state: seq<Entry>): seq<Key> {
    if state == [] then [] else Keys(state[..|state| - 1]) + [state[|state| - 1].key]
  }

  /** `keys` without `key`, order kept. */
  function Drop(keys: seq<Key>, key: Key): seq<Key> {
    if keys == [] then []
    else if keys[|keys| - 1] == key then Drop(keys[..|keys| - 1], key)
    else Drop(keys[..|keys| - 1], key) + [keys[|keys| - 1]]
  }

  predicate Distinct(keys: seq<Key>) {
    keys == [] || (keys[|keys| - 1] !in keys[..|keys| - 1] && Distinct(keys[..|keys| - 1]))
  }

  // --- dictionary facts, each by following the sequence from its newest end ---

  lemma Snoc<T>(s: seq<T>, x: T)
    ensures (s + [x])[..|s + [x]| - 1] == s
    ensures (s + [x])[|s + [x]| - 1] == x
  {
  }

  lemma {:induction false} FindByKey(state: seq<Entry>, k: Key)
    ensures Find(state, k).Some? <==> k in Keys(state)
    ensures Find(state, k).Some? ==> Find(state, k).value.key == k
  {
    if state != [] { FindByKey(state[..|state| - 1], k); }
  }

  lemma FindSnoc(state: seq<Entry>, e: Entry, k: Key)
    ensures Find(state + [e], k) == if e.key == k then Some(e) else Find(state, k)
  {
    Snoc(state, e);
  }

  lemma NewestSnoc<T>(s: seq<T>, x: T, n: nat)
    ensures Newest(s + [x], n) == if n == 0 then [] else Newest(s, n - 1) + [x]
  {
    Snoc(s, x);
  }

  lemma {:induction false} FindWithout(state: seq<Entry>, key: Key, k: Key)
    ensures Find(Without(state, key), k) == if k == key then None else Find(state, k)
  {
    if state != [] {
      var rest, e := state[..|state| - 1], state[|state| - 1];
      FindWithout(rest, key, k);
      if e.key != key { FindSnoc(Without(rest, key), e, k); }
    }
  }

  lemma {:induction false} FindNewest(state: seq<Entry>, n: nat, k: Key)
    ensures Find(Newest(state, n), k) == None || Find(Newest(state, n), k) == Find(state, k)
  {
    if state != [] && n > 0 {
      FindNewest(state[..|state| - 1], n - 1, k);
      Snoc(Newest(state[..|state| - 1], n - 1), state[|state| - 1]);
    }
  }

  lemma KeysSnoc(state: seq<Entry>, e: Entry)
    ensures Keys(state + [e]) == Keys(state) + [e.key]
  {
    Snoc(state, e);
  }

  lemma DropSnoc(keys: seq<Key>, x: Key, key: Key)
    ensures Drop(keys + [x], key) == if x == key then Drop(keys, key) else Drop(keys, key) + [x]
  {
    Snoc(keys, x);
  }

  lemma {:induction false} KeysWithout(state: seq<Entry>, key: Key)
    ensures Keys(Without(state, key)) == Drop(Keys(state), key)
  {
    if state != [] {
      var rest, e := state[..|state| - 1], state[|state| - 1];
      KeysWithout(rest, key);
      KeysSnoc(Without(rest, key), e);
      DropSnoc(Keys(rest), e.key, key);
    }
  }

  lemma {:induction false} KeysNewest(state: seq<Entry>, n: nat)
    ensures Keys(Newest(state, n)) == Newest(Keys(state), n)
  {
    if state != [] && n > 0 {
      KeysNewest(state[..|state| - 1], n - 1);
      Snoc(Newest(state[..|state| - 1], n - 1), state[|state| - 1]);
      Snoc(Keys(state[..|state| - 1]), state[|state| - 1].key);
    }
  }

  lemma {:induction false} NewestSize<T>(s: seq<T>, n: nat)
    ensures |Newest(s, n)| == if |s| <= n then |s| else n
    ensures |s| <= n ==> Newest(s, n) == s
    ensures forall x :: x in Newest(s, n) ==> x in s
  {
    if s != [] && n > 0 { NewestSize(s[..|s| - 1], n - 1); }
  }

  lemma {:induction false} DropMember(keys: seq<Key>, key: Key, k: Key)
    ensures k in Drop(keys, key) <==> k in keys && k != key
  {
    if keys != [] {
      var rest, x := keys[..|keys| - 1], keys[|keys| - 1];
      DropMember(rest, key, k);
      assert k in keys <==> k in rest || k == x;
    }
  }

  lemma {:induction false} DropAbsent(keys: seq<Key>, key: Key)
    requires key !in keys
    ensures Drop(keys, key) == keys
  {
    if keys != [] {
      var rest, x := keys[..|keys| - 1], keys[|keys| - 1];
      assert key !in rest && keys == rest + [x];
      DropAbsent(rest, key);
    }
  }

  lemma {:induction false} DropKeepsDistinct(keys: seq<Key>, key: Key)
    requires Distinct(keys)
    ensures Distinct(Drop(keys, key))
  {
    if keys != [] {
      var rest, x := keys[..|keys| - 1], keys[|keys| - 1];
      DropKeepsDistinct(rest, key);
      DropMember(rest, key, x);
      Snoc(Drop(rest, key), x);
    }
  }

  /** What one call does to each key's entry: its own is rewritten, every other is kept or evicted whole. */
  lemma EntriesAfter(state: seq<Entry>, max: nat, c: Call, k: Key)
    ensures |After(state, max, c)| <= max
    ensures k == KeyOf(c) && max > 0 ==> Find(After(state, max, c), k) == Some(Spent(state, c))
    ensures k == KeyOf(c) && max == 0 ==> Find(After(state, max, c), k) == None
    ensures k != KeyOf(c) ==> Find(After(state, max, c), k) == None || Find(After(state, max, c), k) == Find(state, k)
  {
    var kept, mine := Without(state, KeyOf(c)), Spent(state, c);
    NewestSize(kept + [mine], max);
    NewestSnoc(kept, mine, max);
    if max > 0 { FindSnoc(Newest(kept, max - 1), mine, KeyOf(c)); }
    FindSnoc(kept, mine, k);
    FindNewest(kept + [mine], max, k);
    FindWithout(state, KeyOf(c), k);
  }

  // --- recency ---

  /** The dictionary after a whole trace of calls, starting empty. */
  function Replay(max: nat, calls: seq<Call>): seq<Entry> {
    if calls == [] then [] else After(Replay(max, calls[..|calls| - 1]), max, calls[|calls| - 1])
  }

  /** Every key ever used, least recently used first. */
  function Recent(calls: seq<Call>): seq<Key> {
    if calls == [] then []
    else Drop(Recent(calls[..|calls| - 1]), KeyOf(calls[|calls| - 1])) + [KeyOf(calls[|calls| - 1])]
  }

  predicate Used(calls: seq<Call>, k: Key) {
    calls != [] && (KeyOf(calls[|calls| - 1]) == k || Used(calls[..|calls| - 1], k))
  }

  /** The distinct other keys used after the last use of `k`. */
  function Since(calls: seq<Call>, k: Key): set<Key> {
    if calls == [] || KeyOf(calls[|calls| - 1]) == k then {}
    else Since(calls[..|calls| - 1], k) + {KeyOf(calls[|calls| - 1])}
  }

  /** The keys after `k` in the order. */
  function Behind(keys: seq<Key>, k: Key): set<Key> {
    if keys == [] || keys[|keys| - 1] == k then {}
    else Behind(keys[..|keys| - 1], k) + {keys[|keys| - 1]}
  }

  /** Cutting to `n + 1` keys before dropping one leaves the same `n` newest. */
  lemma {:induction false} CutThenDrop(keys: seq<Key>, key: Key, n: nat)
    requires Distinct(keys)
    ensures Newest(Drop(Newest(keys, n + 1), key), n) == Newest(Drop(keys, key), n)
  {
    if keys != [] {
      var last, x := |keys| - 1, keys[|keys| - 1];
      var rest := keys[..last];
      Snoc(Newest(rest, n), x);
      if x == key {
        NewestSize(rest, n);
        NewestSize(Newest(rest, n), n);
        DropAbsent(rest, key);
        DropAbsent(Newest(rest, n), key);
      } else if n > 0 {
        CutThenDrop(rest, key, n - 1);
        Snoc(Drop(Newest(rest, n), key), x);
        Snoc(Drop(rest, key), x);
      }
    }
  }

  lemma {:induction false} RecentKeys(calls: seq<Call>, k: Key)
    ensures Distinct(Recent(calls))
    ensures k in Recent(calls) <==> Used(calls, k)
  {
    if calls != [] {
      var n := |calls| - 1;
      var earlier, key := Recent(calls[..n]), KeyOf(calls[n]);
      RecentKeys(calls[..n], k);
      DropKeepsDistinct(earlier, key);
      DropMember(earlier, key, key);
      DropMember(earlier, key, k);
      Snoc(Drop(earlier, key), key);
    }
  }

  lemma KeysAfter(state: seq<Entry>, max: nat, c: Call)
    ensures Keys(After(state, max, c)) == Newest(Drop(Keys(state), KeyOf(c)) + [KeyOf(c)], max)
  {
    KeysNewest(Without(state, KeyOf(c)) + [Spent(state, c)], max);
    KeysSnoc(Without(state, KeyOf(c)), Spent(state, c));
    KeysWithout(state, KeyOf(c));
  }

  lemma SameNewestThenSame(a: seq<Key>, b: seq<Key>, x: Key, n: nat)
    requires n > 0 ==> Newest(a, n - 1) == Newest(b, n - 1)
    ensures Newest(a + [x], n) == Newest(b + [x], n)
  {
    NewestSnoc(a, x, n);
    NewestSnoc(b, x, n);
  }

  lemma CutCommutes(keys: seq<Key>, key: Key, max: nat)
    requires Distinct(keys)
    ensures Newest(Drop(Newest(keys, max), key) + [key], max) == Newest(Drop(keys, key) + [key], max)
  {
    if max > 0 { CutThenDrop(keys, key, max - 1); }
    SameNewestThenSame(Drop(Newest(keys, max), key), Drop(keys, key), key, max);
  }

  /** The dictionary order is the order of last use, cut to the most recent `max` keys. */
  lemma {:induction false} OrderIsRecency(max: nat, calls: seq<Call>)
    ensures Keys(Replay(max, calls)) == Newest(Recent(calls), max)
  {
    if calls != [] {
      var past, c := calls[..|calls| - 1], calls[|calls| - 1];
      OrderIsRecency(max, past);
      RecentKeys(past, KeyOf(c));
      KeysAfter(Replay(max, past), max, c);
      CutCommutes(Recent(past), KeyOf(c), max);
    }
  }

  lemma NeverOverCapacity(max: nat, calls: seq<Call>)
    ensures |Replay(max, calls)| <= max
  {
    if calls != [] {
      var c := calls[|calls| - 1];
      EntriesAfter(Replay(max, calls[..|calls| - 1]), max, c, KeyOf(c));
    }
  }

  lemma {:induction false} BehindDrop(keys: seq<Key>, key: Key, k: Key)
    requires Distinct(keys) && k in keys && k != key
    ensures Behind(Drop(keys, key), k) == Behind(keys, k) - {key}
  {
    var n := |keys| - 1;
    Snoc(Drop(keys[..n], key), keys[n]);
    if keys[n] != k {
      BehindDrop(keys[..n], key, k);
      if keys[n] == key { BehindMembers(keys[..n], k); }
    }
  }

  lemma {:induction false} BehindMembers(keys: seq<Key>, k: Key)
    ensures forall x :: x in Behind(keys, k) ==> x in keys
  {
    if keys != [] { BehindMembers(keys[..|keys| - 1], k); }
  }

  lemma {:induction false} SinceIsBehind(calls: seq<Call>, k: Key)
    requires Used(calls, k)
    ensures Since(calls, k) == Behind(Recent(calls), k)
  {
    var n := |calls| - 1;
    var key, earlier := KeyOf(calls[n]), Recent(calls[..n]);
    Snoc(Drop(earlier, key), key);
    if key != k {
      SinceIsBehind(calls[..n], k);
      RecentKeys(calls[..n], k);
      BehindDrop(earlier, key, k);
    }
  }

  lemma {:induction false} NewestHoldsThoseBehind(keys: seq<Key>, k: Key, n: nat)
    requires Distinct(keys) && k in keys
    ensures k in Newest(keys, n) <==> |Behind(keys, k)| < n
    decreases |keys|
  {
    var last := |keys| - 1;
    if keys[last] != k {
      BehindMembers(keys[..last], k);
      NewestHoldsThoseBehind(keys[..last], k, if n == 0 then 0 else n - 1);
    }
  }

  /** A key is remembered exactly while fewer than `max` distinct other keys were used since. */
  lemma RememberedWhileRecent(max: nat, calls: seq<Call>, k: Key)
    ensures Find(Replay(max, calls), k).Some? <==> Used(calls, k) && |Since(calls, k)| < max
  {
    OrderIsRecency(max, calls);
    RecentKeys(calls, k);
    FindByKey(Replay(max, calls), k);
    if Used(calls, k) {
      SinceIsBehind(calls, k);
      NewestHoldsThoseBehind(Recent(calls), k, max);
    } else {
      NewestSize(Recent(calls), max);
    }
  }

  // --- agreement with the limiter that never forgets ---

  /** The dictionary of a limiter without a cap. */
  function Uncapped(calls: seq<Call>): seq<Entry> {
    if calls == [] then []
    else
      var state, c := Uncapped(calls[..|calls| - 1]), calls[|calls| - 1];
      Without(state, KeyOf(c)) + [Spent(state, c)]
  }

  /** Between consecutive uses of a key fewer than `max` distinct other keys are used. */
  predicate FitsWorkingSet(max: nat, calls: seq<Call>) {
    calls == [] ||
    (FitsWorkingSet(max, calls[..|calls| - 1]) &&
     (Used(calls[..|calls| - 1], KeyOf(calls[|calls| - 1])) ==>
        |Since(calls[..|calls| - 1], KeyOf(calls[|calls| - 1]))| < max))
  }

  lemma OneEntryDecides(a: seq<Entry>, b: seq<Entry>, c: Call)
    requires Find(a, KeyOf(c)) == Find(b, KeyOf(c))
    ensures Spent(a, c) == Spent(b, c) && Answer(a, c) == Answer(b, c)
  {
  }

  lemma UncappedStep(past: seq<Call>, c: Call, k: Key)
    ensures Find(Uncapped(past + [c]), k) == if k == KeyOf(c) then Some(Spent(Uncapped(past), c))
        else Find(Uncapped(past), k)
  {
    Snoc(past, c);
    FindWithout(Uncapped(past), KeyOf(c), k);
    FindSnoc(Without(Uncapped(past), KeyOf(c)), Spent(Uncapped(past), c), k);
  }

  /** What the bounded dictionary still knows is what the unbounded one knows. */
  lemma {:induction false} RememberedEntriesAgree(max: nat, calls: seq<Call>, k: Key)
    requires FitsWorkingSet(max, calls)
    ensures Find(Uncapped(calls), k).Some? <==> Used(calls, k)
    ensures Find(Replay(max, calls), k).Some? ==> Find(Replay(max, calls), k) == Find(Uncapped(calls), k)
    decreases |calls|
  {
    if calls != [] {
      var past, c := calls[..|calls| - 1], calls[|calls| - 1];
      assert calls == past + [c];
      RememberedEntriesAgree(max, past, k);
      RememberedEntriesAgree(max, past, KeyOf(c));
      RememberedWhileRecent(max, past, KeyOf(c));
      OneEntryDecides(Replay(max, past), Uncapped(past), c);
      EntriesAfter(Replay(max, past), max, c, k);
      UncappedStep(past, c, k);
    }
  }

  /** On every trace that fits its working set, the bounded limiter answers the next call like the unbounded one. */
  lemma {:induction false} BoundedAgreesWithUnbounded(max: nat, past: seq<Call>, c: Call)
    requires FitsWorkingSet(max, past + [c])
    ensures Answer(Replay(max, past), c) == Answer(Uncapped(past), c)
  {
    Snoc(past, c);
    RememberedWhileRecent(max, past, KeyOf(c));
    RememberedEntriesAgree(max, past, KeyOf(c));
    OneEntryDecides(Replay(max, past), Uncapped(past), c);
  }

  // --- the rate bound ---

  function AdmitsOne(state: seq<Entry>, c: Call, k: Key): nat {
    if KeyOf(c) == k && Answer(state, c).None? then 1 else 0
  }

  /** Requests for `k` admitted while running `calls` from `state`. */
  function Admitted(state: seq<Entry>, max: nat, calls: seq<Call>, k: Key): nat
    decreases |calls|
  {
    if calls == [] then 0
    else AdmitsOne(state, calls[0], k) + Admitted(After(state, max, calls[0]), max, calls[1..], k)
  }

  predicate Evicts(state: seq<Entry>, max: nat, c: Call, k: Key) {
    (Find(state, k).Some? || KeyOf(c) == k) && Find(After(state, max, c), k).None?
  }

  /** How often running `calls` from `state` throws the entry of `k` out. */
  function Evictions(state: seq<Entry>, max: nat, calls: seq<Call>, k: Key): nat
    decreases |calls|
  {
    if calls == [] then 0
    else (if Evicts(state, max, calls[0], k) then 1 else 0) + Evictions(After(state, max, calls[0]), max, calls[1..], k)
  }

  /** A clock that never goes back, read from `from` on; calls for `k` all use bucket `b`. */
  predicate Timed(calls: seq<Call>, from: real, b: Bucket, k: Key) {
    calls == [] ||
    (from <= calls[0].now && (KeyOf(calls[0]) == k ==> calls[0].bucket == b) && Timed(calls[1..], calls[0].now, b, k))
  }

  function EndTime(calls: seq<Call>, from: real): real {
    if calls == [] then from else calls[|calls| - 1].now
  }

  /** The entry of `k` holds between 0 and a full bucket, written no later than `now`. */
  predicate EntryOk(state: seq<Entry>, b: Bucket, k: Key, now: real) {
    match Find(state, k)
    case None => true
    case Some(e) => 0.0 <= e.tokens <= Full(b) && e.last <= now
  }

  lemma GainAdds(b: Bucket, x: real, y: real)
    ensures Gain(b, x + y) == Gain(b, x) + Gain(b, y)
  {
  }

  lemma GainGrows(b: Bucket, x: real)
    ensures x >= 0.0 ==> Gain(b, x) >= 0.0
    ensures x > 0.0 ==> Gain(b, x) > 0.0
    ensures x == 0.0 ==> Gain(b, x) == 0.0
  {
  }

  /** Waiting from `t` to `u` adds at most the gain of that time. */
  lemma RefillGrowth(b: Bucket, tokens: real, last: real, t: real, u: real)
    requires last <= t <= u
    ensures Refill(b, tokens, last, t) <= Refill(b, tokens, last, u) <= Refill(b, tokens, last, t) + Gain(b, u - t)
    ensures Refill(b, tokens, last, u) <= Full(b)
  {
    hide Gain;
    GainAdds(b, t - last, u - t);
    GainGrows(b, u - t);
    assert (t - last) + (u - t) == u - last;
  }

  lemma AvailableGrowth(state: seq<Entry>, b: Bucket, k: Key, t: real, u: real)
    requires EntryOk(state, b, k, t) && t <= u
    ensures 0.0 <= Available(state, b, k, t) <= Available(state, b, k, u) <= Full(b)
    ensures Available(state, b, k, u) <= Available(state, b, k, t) + Gain(b, u - t)
  {
    hide Gain;
    GainGrows(b, u - t);
    GainGrows(b, 0.0);
    match Find(state, k)
    case None =>
    case Some(e) =>
      RefillGrowth(b, e.tokens, e.last, t, u);
      GainGrows(b, t - e.last);
  }

  /** One call moves at most one token per admission and never makes any, evictions aside. */
  lemma CallSpends(state: seq<Entry>, max: nat, c: Call, b: Bucket, k: Key, from: real)
    requires EntryOk(state, b, k, from) && from <= c.now && (KeyOf(c) == k ==> c.bucket == b)
    ensures EntryOk(After(state, max, c), b, k, c.now)
    ensures !Evicts(state, max, c, k) ==>
              Available(After(state, max, c), b, k, c.now) ==
                  Available(state, b, k, c.now) - AdmitsOne(state, c, k) as real
    ensures Available(After(state, max, c), b, k, c.now) <= Full(b)
    ensures AdmitsOne(state, c, k) == 1 ==> Available(state, b, k, c.now) >= 1.0
  {
    hide Gain;
    GainGrows(b, 0.0);
    EntriesAfter(state, max, c, k);
    AvailableGrowth(state, b, k, from, c.now);
  }

  function Credit(state: seq<Entry>, max: nat, c: Call, b: Bucket, k: Key): real {
    if Evicts(state, max, c, k) then Full(b) else 0.0
  }

  /** One full bucket per eviction of `k`. */
  function Credits(state: seq<Entry>, max: nat, calls: seq<Call>, b: Bucket, k: Key): real
    decreases |calls|
  {
    if calls == [] then 0.0
    else Credit(state, max, calls[0], b, k) + Credits(After(state, max, calls[0]), max, calls[1..], b, k)
  }

  /** What one call takes out and leaves is covered by what was there, the time that passed and an eviction. */
  lemma CallBudget(state: seq<Entry>, max: nat, c: Call, b: Bucket, k: Key, from: real)
    requires EntryOk(state, b, k, from) && from <= c.now && (KeyOf(c) == k ==> c.bucket == b)
    ensures Available(After(state, max, c), b, k, c.now) + AdmitsOne(state, c, k) as real
              <= Available(state, b, k, from) + Gain(b, c.now - from) + Credit(state, max, c, b, k)
  {
    hide Gain, After, Available;
    CallSpends(state, max, c, b, k, from);
    AvailableGrowth(state, b, k, from, c.now);
    if Evicts(state, max, c, k) {
      assert AdmitsOne(state, c, k) as real <= Available(state, b, k, c.now);
    } else {
      assert Credit(state, max, c, b, k) == 0.0;
    }
  }

  /**
    The rate bound, for every trace: admissions never exceed the tokens there, one full bucket
    per eviction, and the refill of the time that passed.
   */
  lemma {:induction false} AdmissionsAreBounded(state: seq<Entry>, max: nat, calls: seq<Call>, b: Bucket, k: Key,
                                                from: real)
    requires EntryOk(state, b, k, from) && Timed(calls, from, b, k)
    ensures Admitted(state, max, calls, k) as real
              <= Available(state, b, k, from) + Credits(state, max, calls, b, k) + Gain(b, EndTime(calls, from) - from)
    decreases |calls|
  {
    hide Gain, After, Answer, Available;
    if calls == [] {
      AvailableGrowth(state, b, k, from, from);
      GainGrows(b, 0.0);
    } else {
      var c := calls[0];
      CallSpends(state, max, c, b, k, from);
      CallBudget(state, max, c, b, k, from);
      AdmissionsAreBounded(After(state, max, c), max, calls[1..], b, k, c.now);
      GainAdds(b, c.now - from, EndTime(calls, from) - c.now);
      assert (c.now - from) + (EndTime(calls, from) - c.now) == EndTime(calls, from) - from;
    }
  }

  /** What `n` full buckets hold. */
  function Buckets(b: Bucket, n: nat): real {
    n as real * Full(b)
  }

  lemma OneMoreBucket(b: Bucket, n: nat)
    ensures Buckets(b, n + 1) == Full(b) + Buckets(b, n)
    ensures Buckets(b, 0) == 0.0
  {
  }

  lemma {:induction false} CreditsPerEviction(state: seq<Entry>, max: nat, calls: seq<Call>, b: Bucket, k: Key)
    ensures Credits(state, max, calls, b, k) == Buckets(b, Evictions(state, max, calls, k))
    decreases |calls|
  {
    hide Buckets, After;
    OneMoreBucket(b, 0);
    if calls != [] {
      var next := After(state, max, calls[0]);
      CreditsPerEviction(next, max, calls[1..], b, k);
      OneMoreBucket(b, Evictions(next, max, calls[1..], k));
    }
  }

  /** A window of time brings exactly the bucket's limit. */
  lemma GainPerWindow(b: Bucket, d: real)
    ensures Gain(b, d) * b.window == d * Full(b)
  {
    assert (d * b.refill) * b.window == d * (b.refill * b.window);
  }

  /** From an empty limiter: at most `limit`, once more per eviction of `k`, plus `limit` per window. */
  lemma RateBound(max: nat, calls: seq<Call>, b: Bucket, k: Key, from: real)
    requires Timed(calls, from, b, k)
    ensures var time := EndTime(calls, from) - from;
            Admitted([], max, calls, k) as real
              <= Full(b) + Buckets(b, Evictions([], max, calls, k)) + Gain(b, time)
  {
    hide Buckets, Gain;
    GainGrows(b, 0.0);
    AdmissionsAreBounded([], max, calls, b, k, from);
    AvailableGrowth([], b, k, from, from);
    CreditsPerEviction([], max, calls, b, k);
  }

  /** The dictionary after `calls`. */
  function Run(state: seq<Entry>, max: nat, calls: seq<Call>): seq<Entry>
    decreases |calls|
  {
    if calls == [] then state else Run(After(state, max, calls[0]), max, calls[1..])
  }

  lemma {:induction false} TimesGrow(calls: seq<Call>, from: real, b: Bucket, k: Key)
    requires Timed(calls, from, b, k)
    ensures from <= EndTime(calls, from)
  {
    if calls != [] { TimesGrow(calls[1..], calls[0].now, b, k); }
  }

  /** A trace in time is in time before and after any cut. */
  lemma {:induction false} TimedSplit(pre: seq<Call>, mid: seq<Call>, from: real, b: Bucket, k: Key)
    requires Timed(pre + mid, from, b, k)
    ensures Timed(pre, from, b, k) && Timed(mid, EndTime(pre, from), b, k)
  {
    if pre == [] {
      assert pre + mid == mid;
    } else {
      assert (pre + mid)[1..] == pre[1..] + mid;
      TimedSplit(pre[1..], mid, pre[0].now, b, k);
    }
  }

  lemma {:induction false} EntryStaysOk(state: seq<Entry>, max: nat, calls: seq<Call>, b: Bucket, k: Key, from: real)
    requires EntryOk(state, b, k, from) && Timed(calls, from, b, k)
    ensures EntryOk(Run(state, max, calls), b, k, EndTime(calls, from))
    decreases |calls|
  {
    hide After, EntryOk;
    if calls != [] {
      CallSpends(state, max, calls[0], b, k, from);
      EntryStaysOk(After(state, max, calls[0]), max, calls[1..], b, k, calls[0].now);
    }
  }

  /**
    In any interval of any trace: what is admitted between two calls is at most `limit`, once more
    per eviction in the interval, plus the refill of its length.
   */
  lemma AnyIntervalIsBounded(max: nat, pre: seq<Call>, mid: seq<Call>, b: Bucket, k: Key, from: real)
    requires Timed(pre + mid, from, b, k) && mid != []
    ensures var state, start := Run([], max, pre), mid[0].now;
            Admitted(state, max, mid, k) as real
              <= Full(b) + Buckets(b, Evictions(state, max, mid, k)) + Gain(b, EndTime(mid, start) - start)
  {
    hide Buckets, Gain, Run, Available;
    var state, start := Run([], max, pre), mid[0].now;
    TimedSplit(pre, mid, from, b, k);
    EntryStaysOk([], max, pre, b, k, from);
    LaterIsOk(state, b, k, EndTime(pre, from), start);
    AdmissionsAreBounded(state, max, mid, b, k, start);
    AvailableGrowth(state, b, k, start, start);
    CreditsPerEviction(state, max, mid, b, k);
  }

  lemma LaterIsOk(state: seq<Entry>, b: Bucket, k: Key, t: real, u: real)
    requires EntryOk(state, b, k, t) && t <= u
    ensures EntryOk(state, b, k, u)
  {
  }

  // --- polling and retry-after ---

  function Ceil(x: real): int {
    -((-x).Floor)
  }

  /** The whole seconds a denied caller is told to wait. */
  function RetryAfter(wait: real): int {
    Max(1, Ceil(wait))
  }

  /** Refilling in two steps is refilling in one. */
  lemma RefillInSteps(b: Bucket, tokens: real, last: real, t: real, u: real)
    requires last <= t <= u
    ensures Refill(b, Refill(b, tokens, last, t), t, u) == Refill(b, tokens, last, u)
  {
    hide Gain;
    GainGrows(b, u - t);
    GainAdds(b, t - last, u - t);
    assert (t - last) + (u - t) == u - last;
  }

  lemma GainMeets(b: Bucket, d: real, need: real)
    ensures Gain(b, d) >= need <==> d >= need / b.refill
  {
    var w := need / b.refill;
    assert w * b.refill == need;
    GainGrows(b, d - w);
    GainGrows(b, w - d);
    GainAdds(b, w, d - w);
    GainAdds(b, d, w - d);
    assert w + (d - w) == d && d + (w - d) == w;
  }

  /** Without another use of the key, the call is admitted exactly from the announced moment on. */
  lemma DenialIsExact(state: seq<Entry>, max: nat, c: Call, u: real)
    requires max > 0 && EntryOk(state, c.bucket, KeyOf(c), c.now) && c.now <= u
    requires Answer(state, c).Some?
    ensures Answer(After(state, max, c), c.(now := u)).None? <==> u >= c.now + Answer(state, c).value
  {
    hide Gain;
    EntriesAfter(state, max, c, KeyOf(c));
    GainMeets(c.bucket, u - c.now, 1.0 - Available(state, c.bucket, KeyOf(c), c.now));
  }

  /** Calls that admit nobody for `k` do not touch what `k` will have at `u`, unless they evict it to a full bucket. */
  lemma {:induction false} PollingIsHarmless(state: seq<Entry>, max: nat, calls: seq<Call>, b: Bucket, k: Key,
                                             from: real, u: real)
    requires EntryOk(state, b, k, from) && Timed(calls, from, b, k) && EndTime(calls, from) <= u
    requires Admitted(state, max, calls, k) == 0
    ensures from <= EndTime(calls, from)
    ensures var end := Run(state, max, calls);
            Available(end, b, k, u) == Available(state, b, k, u) || Available(end, b, k, u) == Full(b)
    ensures Evictions(state, max, calls, k) == 0 ==>
        Available(Run(state, max, calls), b, k, u) == Available(state, b, k, u)
    decreases |calls|
  {
    if calls != [] {
      var c := calls[0];
      var next := After(state, max, c);
      CallSpends(state, max, c, b, k, from);
      EntriesAfter(state, max, c, k);
      TimesGrow(calls[1..], c.now, b, k);
      if KeyOf(c) == k && Find(state, k).Some? {
        var e := Find(state, k).value;
        RefillInSteps(b, e.tokens, e.last, c.now, u);
      }
      if Find(state, k).None? { AvailableGrowth(state, b, k, from, u); }
      PollingIsHarmless(next, max, calls[1..], b, k, c.now, u);
    }
  }

  /** A caller who waits the announced whole seconds is admitted, however often it (or others) polled meanwhile. */
  lemma {:induction false} RetryAfterIsSound(state: seq<Entry>, max: nat, denied: Call, polls: seq<Call>, retry: Call)
    requires EntryOk(state, denied.bucket, KeyOf(denied), denied.now) && Answer(state, denied).Some?
    requires Timed(polls, denied.now, denied.bucket, KeyOf(denied))
    requires Admitted(After(state, max, denied), max, polls, KeyOf(denied)) == 0
    requires retry.bucket == denied.bucket && retry.identity == denied.identity
    requires retry.now >= EndTime(polls, denied.now)
    requires retry.now >= denied.now + RetryAfter(Answer(state, denied).value) as real
    ensures Answer(Run(After(state, max, denied), max, polls), retry).None?
  {
    var b, k, u, w := denied.bucket, KeyOf(denied), retry.now, Answer(state, denied).value;
    var next := After(state, max, denied);
    assert RetryAfter(w) as real >= w;
    CallSpends(state, max, denied, b, k, denied.now);
    EntriesAfter(state, max, denied, k);
    TimesGrow(polls, denied.now, b, k);
    if max > 0 {
      DenialIsExact(state, max, denied, u);
    }
    assert Available(next, b, k, u) >= 1.0;
    PollingIsHarmless(next, max, polls, b, k, denied.now, u);
  }

  // --- the limiter itself ---

  lemma {:induction false} NewestAfterPop<T>(s: seq<T>, n: nat)
    requires |s| > n
    ensures Newest(s[1..], n) == Newest(s, n)
  {
    if n > 0 {
      NewestAfterPop(s[..|s| - 1], n - 1);
      assert s[1..][..|s[1..]| - 1] == s[..|s| - 1][1..];
    }
  }

  class TokenBucketLimiter {
    const maxEntries: nat
    var state: seq<Entry>

    constructor (maxEntries: nat := DEFAULT_MAX_ENTRIES)
      ensures this.maxEntries == maxEntries && state == []
    {
      this.maxEntries := maxEntries;
      state := [];
    }

    /** None when a token was taken, otherwise the seconds until one will be there. */
    method TryConsume(bucket: Bucket, identity: string, now: real) returns (wait: Option<real>)
      modifies this
      ensures wait == Answer(old(state), Call(bucket, identity, now))
      ensures state == After(old(state), maxEntries, Call(bucket, identity, now))
    {
      hide Gain, Wait, Find, Without, Newest;
      var key := (bucket.name, identity);
      var tokens, last := Full(bucket), now;
      var known := Find(state, key);
      if known.Some? {
        tokens, last := known.value.tokens, known.value.last;
      }
      var elapsed := MaxReal(0.0, now - last);
      tokens := MinReal(Full(bucket), tokens + Gain(bucket, elapsed));
      if tokens >= 1.0 {
        PutLast(Entry(key, tokens - 1.0, now));
        EvictIfOverCapacity();
        return None;
      }
      PutLast(Entry(key, tokens, now));
      EvictIfOverCapacity();
      return Some(Wait(bucket, tokens));
    }

    /** Write the entry of a key and move it to the most recently used end. */
    method PutLast(e: Entry)
      modifies this
      ensures state == Without(old(state), e.key) + [e]
    {
      state := Without(state, e.key) + [e];
    }

    method EvictIfOverCapacity()
      modifies this
      ensures state == Newest(old(state), maxEntries)
    {
      while |state| > maxEntries
        invariant Newest(state, maxEntries) == Newest(old(state), maxEntries)
      {
        NewestAfterPop(state, maxEntries);
        state := state[1..];
      }
      NewestSize(state, maxEntries);
    }

    method Reset()
      modifies this
      ensures state == []
    {
      state := [];
    }
  }
}
