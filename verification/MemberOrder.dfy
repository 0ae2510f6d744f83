/** Sorting an object's members by key: the result depends only on which key maps to what. */
module MemberOrder {
  import opened Basics
  import opened JsonText
  import opened Surrogates

  function Lookup(m: Members, key: PyStr): Option<Json> {
    match m
    case NoMembers => None
    case Member(k, v, rest) => if k == key then Some(v) else Lookup(rest, key)
  }

  predicate Once(m: Members) {
    m.Member? ==> Lookup(m.rest, m.key).None? && Once(m.rest)
  }

  predicate AllAfter(key: PyStr, m: Members) {
    m.Member? ==> StrLess(key, m.key) && AllAfter(key, m.rest)
  }

  predicate Strict(m: Members) {
    m.Member? ==> AllAfter(m.key, m.rest) && Strict(m.rest)
  }

  predicate ProperKeys(m: Members) {
    m.Member? ==> PairFree(m.key) && ProperKeys(m.rest)
  }

  lemma {:induction false} LessIsStrict(a: PyStr)
    ensures !StrLess(a, a)
  {
    if a != [] { LessIsStrict(a[1..]); }
  }

  lemma {:induction false} LessIsTransitive(a: PyStr, b: PyStr, c: PyStr)
    requires StrLess(a, b) && StrLess(b, c)
    ensures StrLess(a, c)
    decreases |a|
  {
    if a != [] && a[0] == b[0] && b[0] == c[0] { LessIsTransitive(a[1..], b[1..], c[1..]); }
  }

  lemma {:induction false} LessIsTotal(a: PyStr, b: PyStr)
    ensures StrLess(a, b) || a == b || StrLess(b, a)
    decreases |a|
  {
    if a != [] && b != [] && a[0] == b[0] {
      LessIsTotal(a[1..], b[1..]);
      assert a == [a[0]] + a[1..] && b == [b[0]] + b[1..];
    }
  }

  lemma {:induction false} AllAfterLower(low: PyStr, key: PyStr, m: Members)
    requires StrLess(low, key) && AllAfter(key, m)
    ensures AllAfter(low, m)
  {
    if m.Member? {
      LessIsTransitive(low, key, m.key);
      AllAfterLower(low, key, m.rest);
    }
  }

  lemma {:induction false} NotAmongLater(key: PyStr, m: Members)
    requires AllAfter(key, m)
    ensures Lookup(m, key).None?
  {
    if m.Member? {
      LessIsStrict(key);
      NotAmongLater(key, m.rest);
    }
  }

  lemma {:induction false} FoundLater(low: PyStr, m: Members, key: PyStr)
    requires AllAfter(low, m) && Lookup(m, key).Some?
    ensures StrLess(low, key)
  {
    if m.key != key { FoundLater(low, m.rest, key); }
  }

  lemma {:induction false} InsertFacts(key: PyStr, value: Json, m: Members, x: PyStr)
    requires Strict(m) && Lookup(m, key).None?
    ensures Strict(Insert(key, value, m))
    ensures Lookup(Insert(key, value, m), x) == if x == key then Some(value) else Lookup(m, x)
    ensures StrLess(x, key) && AllAfter(x, m) ==> AllAfter(x, Insert(key, value, m))
    decreases m
  {
    if m.Member? {
      if StrLess(m.key, key) {
        InsertFacts(key, value, m.rest, x);
        InsertFacts(key, value, m.rest, m.key);
      } else {
        LessIsTotal(key, m.key);
        AllAfterLower(key, m.key, m.rest);
      }
    }
  }

  lemma {:induction false} SortFacts(m: Members, x: PyStr)
    requires Once(m)
    ensures Strict(Sort(m)) && Lookup(Sort(m), x) == Lookup(m, x)
  {
    if m.Member? {
      SortFacts(m.rest, x);
      SortFacts(m.rest, m.key);
      InsertFacts(m.key, m.value, Sort(m.rest), x);
    }
  }

  ghost predicate MatchAt(a: Members, b: Members, x: PyStr) {
    (Lookup(a, x).Some? <==> Lookup(b, x).Some?) &&
    (Lookup(a, x).Some? && Lookup(b, x).Some? ==> Same(Lookup(a, x).value, Lookup(b, x).value))
  }

  lemma {:induction false} OrderedSame(a: Members, b: Members)
    requires Strict(a) && Strict(b) && forall x: PyStr :: MatchAt(a, b, x)
    ensures SameMembers(a, b)
    decreases a
  {
    hide Utf16, Same;
    if a.Member? {
      assert MatchAt(a, b, a.key);
      assert b.Member?;
      assert MatchAt(a, b, b.key);
      SameLeast(a, b);
      NotAmongLater(a.key, a.rest);
      NotAmongLater(b.key, b.rest);
      forall x: PyStr ensures MatchAt(a.rest, b.rest, x) {
        assert MatchAt(a, b, x);
      }
      OrderedSame(a.rest, b.rest);
    } else if b.Member? {
      assert MatchAt(a, b, b.key);
    }
  }

  lemma SameLeast(a: Members, b: Members)
    requires Strict(a) && Strict(b) && a.Member? && b.Member?
    requires Lookup(a, b.key).Some? && Lookup(b, a.key).Some?
    ensures a.key == b.key
  {
    if a.key != b.key {
      FoundLater(a.key, a.rest, b.key);
      FoundLater(b.key, b.rest, a.key);
      LessIsTransitive(a.key, b.key, a.key);
      LessIsStrict(a.key);
    }
  }

  lemma {:induction false} SameLookup(a: Members, b: Members, x: PyStr)
    requires SameMembers(a, b) && ProperKeys(a) && ProperKeys(b)
    ensures MatchAt(a, b, x)
    decreases a
  {
    hide Utf16, Same;
    if a.Member? {
      UnitsTell(a.key, b.key);
      SameLookup(a.rest, b.rest, x);
    }
  }

  lemma {:induction false} InsertKeepsProper(key: PyStr, value: Json, m: Members)
    requires PairFree(key) && ProperKeys(m)
    ensures ProperKeys(Insert(key, value, m))
  {
    if m.Member? { InsertKeepsProper(key, value, m.rest); }
  }

  lemma {:induction false} SortKeepsProper(m: Members)
    requires ProperKeys(m)
    ensures ProperKeys(Sort(m))
  {
    if m.Member? {
      SortKeepsProper(m.rest);
      InsertKeepsProper(m.key, m.value, Sort(m.rest));
    }
  }

  /** With proper keys used once, sorting makes two objects alike exactly when every key matches. */
  lemma SortedAlike(a: Members, b: Members)
    requires Once(a) && Once(b) && ProperKeys(a) && ProperKeys(b)
    ensures SameMembers(Sort(a), Sort(b)) <==> forall x: PyStr :: MatchAt(a, b, x)
  {
    hide Utf16, Same;
    SortFacts(a, []);
    SortFacts(b, []);
    SortKeepsProper(a);
    SortKeepsProper(b);
    if SameMembers(Sort(a), Sort(b)) {
      forall x: PyStr ensures MatchAt(a, b, x) {
        SortFacts(a, x);
        SortFacts(b, x);
        SameLookup(Sort(a), Sort(b), x);
      }
    }
    if forall x: PyStr :: MatchAt(a, b, x) {
      forall x: PyStr ensures MatchAt(Sort(a), Sort(b), x) {
        assert MatchAt(a, b, x);
        SortFacts(a, x);
        SortFacts(b, x);
      }
      OrderedSame(Sort(a), Sort(b));
    }
  }
}
