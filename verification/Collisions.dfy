/** Exactly which payloads share a canonical text when their strings may spell surrogate pairs. */
module Collisions {
  import opened Basics
  import opened JsonText
  import opened Surrogates
  import opened MemberOrder
  import opened Canonical

  /** The payload with every text value repaired. */
  function RepairedTexts(p: Payload): Payload {
    match p
    case Text(kind, s) => Text(kind, Repaired(s))
    case List(items) => List(RepairedItems(items))
    case Tuple(items) => Tuple(RepairedItems(items))
    case Dict(entries) => Dict(RepairedEntries(entries))
    case _ => p
  }

  function RepairedItems(items: Payloads): Payloads {
    match items
    case Nil => Nil
    case Cons(head, tail) => Cons(RepairedTexts(head), RepairedItems(tail))
  }

  function RepairedEntries(entries: Entries): Entries {
    match entries
    case End => End
    case Entry(key, value, rest) => Entry(key, RepairedTexts(value), RepairedEntries(rest))
  }

  predicate PairFreeKeys(p: Payload) {
    match p
    case List(items) => PairFreeKeysOfItems(items)
    case Tuple(items) => PairFreeKeysOfItems(items)
    case Dict(entries) => PairFreeKeysOfEntries(entries)
    case _ => true
  }

  predicate PairFreeKeysOfItems(items: Payloads) {
    items.Cons? ==> PairFreeKeys(items.head) && PairFreeKeysOfItems(items.tail)
  }

  predicate PairFreeKeysOfEntries(entries: Entries) {
    entries.Entry? ==>
      (entries.key.StrKey? ==> PairFree(entries.key.s))
      && PairFreeKeys(entries.value) && PairFreeKeysOfEntries(entries.rest)
  }

  // --- repairing keeps what the encoder needs ---

  lemma {:induction false} RepairedIsAdmissible(p: Payload)
    requires FaultOf(p).Fine? && KeysOnce(p) && PairFreeKeys(p)
    ensures Admissible(RepairedTexts(p))
    decreases p
  {
    hide PairFree, Repaired;
    match p
    case Text(_, s) => RepairedIsPairFree(s);
    case List(items) => ItemsAreAdmissible(items);
    case Tuple(items) => ItemsAreAdmissible(items);
    case Dict(entries) => EntriesAreAdmissible(entries);
    case _ =>
  }

  lemma {:induction false} ItemsAreAdmissible(items: Payloads)
    requires FaultOfItems(items).Fine? && KeysOnceItems(items) && PairFreeKeysOfItems(items)
    ensures var r := RepairedItems(items);
            FaultOfItems(r).Fine? && KeysOnceItems(r) && ProperItems(r)
    decreases items
  {
    if items.Cons? {
      RepairedIsAdmissible(items.head);
      ItemsAreAdmissible(items.tail);
    }
  }

  lemma {:induction false} EntriesAreAdmissible(entries: Entries)
    requires FaultOfEntries(entries).Fine? && KeysOnceEntries(entries) && PairFreeKeysOfEntries(entries)
    ensures var r := RepairedEntries(entries);
            FaultOfEntries(r).Fine? && KeysOnceEntries(r) && ProperEntries(r)
    decreases entries
  {
    hide PairFree;
    if entries.Entry? {
      RepairedIsAdmissible(entries.value);
      EntriesAreAdmissible(entries.rest);
      SameKeys(entries.rest, entries.key.s);
    }
  }

  lemma {:induction false} SameKeys(entries: Entries, key: PyStr)
    ensures Find(RepairedEntries(entries), key).Some? <==> Find(entries, key).Some?
  {
    if entries.Entry? { SameKeys(entries.rest, key); }
  }

  // --- and what it prints ---

  /** The same keys in the same places, with alike values. */
  predicate Parallel(a: Members, b: Members) {
    (a.Member? <==> b.Member?)
    && (a.Member? && b.Member? ==> a.key == b.key && Same(a.value, b.value) && Parallel(a.rest, b.rest))
  }

  lemma {:induction false} ParallelIsSame(a: Members, b: Members)
    requires Parallel(a, b)
    ensures SameMembers(a, b)
  {
    hide Utf16, Same;
    if a.Member? { ParallelIsSame(a.rest, b.rest); }
  }

  lemma {:induction false} InsertParallel(key: PyStr, v: Json, w: Json, a: Members, b: Members)
    requires Same(v, w) && Parallel(a, b)
    ensures Parallel(Insert(key, v, a), Insert(key, w, b))
    decreases a
  {
    hide Utf16, Same, StrLess;
    if a.Member? { InsertParallel(key, v, w, a.rest, b.rest); }
  }

  lemma {:induction false} SortParallel(a: Members, b: Members)
    requires Parallel(a, b)
    ensures Parallel(Sort(a), Sort(b))
    decreases a
  {
    hide Utf16, Same, Insert;
    if a.Member? {
      SortParallel(a.rest, b.rest);
      InsertParallel(a.key, a.value, b.value, Sort(a.rest), Sort(b.rest));
    }
  }

  lemma {:induction false} RepairedPrintsAlike(p: Payload)
    requires FaultOf(p).Fine?
    ensures FaultOf(RepairedTexts(p)).Fine? && Same(SortedTagged(p), SortedTagged(RepairedTexts(p)))
    decreases p, 1
  {
    hide Utf16, SortedTagged, Repaired, IntText, SortedItems, SortedMembers, TaggedItems, TaggedEntries;
    var r := RepairedTexts(p);
    match p {
      case Text(_, s) => RepairKeepsUnits(s);
      case List(items) => ItemsPrintAlike(items);
      case Tuple(items) => ItemsPrintAlike(items);
      case Dict(entries) =>
        EntriesPrintAlike(entries);
        SortParallel(SortedMembers(TaggedEntries(entries)), SortedMembers(TaggedEntries(r.entries)));
        ParallelIsSame(Sort(SortedMembers(TaggedEntries(entries))), Sort(SortedMembers(TaggedEntries(r.entries))));
      case _ =>
    }
    TagAndBody(p, r);
  }

  lemma {:induction false} ItemsPrintAlike(items: Payloads)
    requires FaultOfItems(items).Fine?
    ensures var r := RepairedItems(items);
            FaultOfItems(r).Fine? && SameItems(SortedItems(TaggedItems(items)), SortedItems(TaggedItems(r)))
    decreases items, 0
  {
    hide Utf16, Tagged, Sorted, Same;
    if items.Cons? {
      RepairedPrintsAlike(items.head);
      ItemsPrintAlike(items.tail);
    }
  }

  lemma {:induction false} EntriesPrintAlike(entries: Entries)
    requires FaultOfEntries(entries).Fine?
    ensures var r := RepairedEntries(entries);
            FaultOfEntries(r).Fine? && Parallel(SortedMembers(TaggedEntries(entries)), SortedMembers(TaggedEntries(r)))
    decreases entries, 0
  {
    hide Utf16, Tagged, Sorted, Same;
    if entries.Entry? {
      RepairedPrintsAlike(entries.value);
      EntriesPrintAlike(entries.rest);
    }
  }

  lemma RepairedText(p: Payload)
    requires FaultOf(p).Fine?
    ensures CanonicalText(RepairedTexts(p)) == CanonicalText(p)
  {
    hide Sorted, Tagged, Dumps, Same, RepairedTexts;
    RepairedPrintsAlike(p);
    DumpsTell(Tagged(p), Tagged(RepairedTexts(p)));
  }

  /**
    With pair-free keys and any text values at all: two payloads share their canonical text
    exactly when, their texts repaired, they are the same request.
   */
  lemma CollisionsWithPairFreeKeys(p: Payload, q: Payload)
    requires FaultOf(p).Fine? && KeysOnce(p) && PairFreeKeys(p)
    requires FaultOf(q).Fine? && KeysOnce(q) && PairFreeKeys(q)
    ensures CanonicalText(p) == CanonicalText(q) <==> Equivalent(RepairedTexts(p), RepairedTexts(q))
  {
    hide CanonicalText, Equivalent, RepairedTexts;
    RepairedIsAdmissible(p);
    RepairedIsAdmissible(q);
    RepairedText(p);
    RepairedText(q);
    CanonicalTextTells(RepairedTexts(p), RepairedTexts(q));
  }

  // --- what any payload prints ---

  function InsertEntry(key: Key, value: Payload, sorted: Entries): Entries {
    match sorted
    case End => Entry(key, value, End)
    case Entry(k, v, rest) =>
      if k.StrKey? && key.StrKey? && StrLess(k.s, key.s) then Entry(k, v, InsertEntry(key, value, rest))
      else Entry(key, value, sorted)
  }

  function SortEntries(entries: Entries): Entries {
    match entries
    case End => End
    case Entry(key, value, rest) => InsertEntry(key, value, SortEntries(rest))
  }

  function RepairedKeys(entries: Entries): Entries {
    match entries
    case End => End
    case Entry(key, value, rest) =>
      Entry(if key.StrKey? then StrKey(Repaired(key.s)) else key, value, RepairedKeys(rest))
  }

  /**
    The request the encoder writes down: tuples are lists, the members of a dictionary stand in
    the order of their keys as given, and then every text and key is repaired.
   */
  function Normal(p: Payload): Payload {
    match p
    case Text(kind, s) => Text(kind, Repaired(s))
    case List(items) => List(NormalItems(items))
    case Tuple(items) => List(NormalItems(items))
    case Dict(entries) => Dict(RepairedKeys(SortEntries(NormalEntries(entries))))
    case _ => p
  }

  function NormalItems(items: Payloads): Payloads {
    match items
    case Nil => Nil
    case Cons(head, tail) => Cons(Normal(head), NormalItems(tail))
  }

  function NormalEntries(entries: Entries): Entries {
    match entries
    case End => End
    case Entry(key, value, rest) => Entry(key, Normal(value), NormalEntries(rest))
  }

  lemma {:induction false} InsertEntryTagged(key: Key, value: Payload, sorted: Entries)
    requires key.StrKey? && FaultOf(value).Fine? && FaultOfEntries(sorted).Fine?
    ensures FaultOfEntries(InsertEntry(key, value, sorted)).Fine?
    ensures TaggedEntries(InsertEntry(key, value, sorted)) == Insert(key.s, Tagged(value), TaggedEntries(sorted))
  {
    hide Tagged, StrLess;
    if sorted.Entry? { InsertEntryTagged(key, value, sorted.rest); }
  }

  lemma {:induction false} SortEntriesTagged(entries: Entries)
    requires FaultOfEntries(entries).Fine?
    ensures FaultOfEntries(SortEntries(entries)).Fine?
    ensures TaggedEntries(SortEntries(entries)) == Sort(TaggedEntries(entries))
  {
    hide Tagged, Insert, InsertEntry;
    if entries.Entry? {
      SortEntriesTagged(entries.rest);
      InsertEntryTagged(entries.key, entries.value, SortEntries(entries.rest));
    }
  }

  lemma {:induction false} RepairedKeysPrintAlike(m: Members, entries: Entries)
    requires FaultOfEntries(entries).Fine? && Parallel(m, TaggedEntries(entries))
    ensures FaultOfEntries(RepairedKeys(entries)).Fine? && SameMembers(m, TaggedEntries(RepairedKeys(entries)))
    decreases entries
  {
    hide Tagged, Utf16, Same, Repaired;
    if entries.Entry? {
      RepairKeepsUnits(entries.key.s);
      RepairedKeysPrintAlike(m.rest, entries.rest);
    }
  }

  /** The tagged payload, tag and body, before anything is sorted. */
  function RawBody(p: Payload): Json
    requires FaultOf(p).Fine? && !p.Null?
  {
    match p
    case Boolean(b) => Bool(b)
    case Integer(n) => Num(IntText(n))
    case Float(repr) => Num(repr)
    case Text(_, s) => Str(s)
    case List(items) => Arr(TaggedItems(items))
    case Tuple(items) => Arr(TaggedItems(items))
    case Dict(entries) => Obj(TaggedEntries(entries))
  }

  lemma RawPairing(p: Payload)
    requires FaultOf(p).Fine?
    ensures Tagged(p) == if p.Null? then Arr(Item(Str(Chars(TagName(NullTag))), NoItems))
                         else TagPair(TagOf(p), RawBody(p))
  {
    hide TagName, Chars, TaggedItems, TaggedEntries, IntText;
  }

  lemma {:induction false} NormalPrints(p: Payload)
    requires FaultOf(p).Fine?
    ensures FaultOf(Normal(p)).Fine? && Same(SortedTagged(p), Tagged(Normal(p)))
    decreases p, 1
  {
    hide Utf16, SortedTagged, Tagged, Repaired, IntText, SortedItems, SortedMembers, TaggedItems, TaggedEntries;
    hide TagName, Chars, TagPair, Sort, SortEntries, RepairedKeys;
    match p {
      case Text(_, s) => RepairKeepsUnits(s);
      case List(items) => NormalItemsPrint(items);
      case Tuple(items) => NormalItemsPrint(items);
      case Dict(entries) =>
        NormalEntriesPrint(entries);
        SortParallel(SortedMembers(TaggedEntries(entries)), TaggedEntries(NormalEntries(entries)));
        SortEntriesTagged(NormalEntries(entries));
        RepairedKeysPrintAlike(Sort(SortedMembers(TaggedEntries(entries))), SortEntries(NormalEntries(entries)));
      case _ =>
    }
    Pairing(p);
    RawPairing(Normal(p));
    if !p.Null? { PairsTell(TagOf(p), BodyOf(p), TagOf(Normal(p)), RawBody(Normal(p))); }
  }

  lemma {:induction false} NormalItemsPrint(items: Payloads)
    requires FaultOfItems(items).Fine?
    ensures var n := NormalItems(items);
            FaultOfItems(n).Fine? && SameItems(SortedItems(TaggedItems(items)), TaggedItems(n))
    decreases items, 0
  {
    hide Utf16, Tagged, Sorted, Same;
    if items.Cons? {
      NormalPrints(items.head);
      NormalItemsPrint(items.tail);
    }
  }

  lemma {:induction false} NormalEntriesPrint(entries: Entries)
    requires FaultOfEntries(entries).Fine?
    ensures var n := NormalEntries(entries);
            FaultOfEntries(n).Fine? && Parallel(SortedMembers(TaggedEntries(entries)), TaggedEntries(n))
    decreases entries, 0
  {
    hide Utf16, Tagged, Sorted, Same;
    if entries.Entry? {
      NormalPrints(entries.value);
      NormalEntriesPrint(entries.rest);
    }
  }

  // --- normal requests are told apart ---

  /** Every text and key is repaired, and there are no tuples. */
  predicate Neat(p: Payload) {
    match p
    case Text(_, s) => PairFree(s)
    case List(items) => NeatItems(items)
    case Tuple(items) => false
    case Dict(entries) => NeatKeys(entries) && NeatValues(entries)
    case _ => true
  }

  predicate NeatItems(items: Payloads) {
    items.Cons? ==> Neat(items.head) && NeatItems(items.tail)
  }

  predicate NeatKeys(entries: Entries) {
    entries.Entry? ==> (entries.key.StrKey? ==> PairFree(entries.key.s)) && NeatKeys(entries.rest)
  }

  predicate NeatValues(entries: Entries) {
    entries.Entry? ==> Neat(entries.value) && NeatValues(entries.rest)
  }

  lemma {:induction false} InsertKeepsNeat(key: Key, value: Payload, sorted: Entries)
    requires Neat(value) && NeatValues(sorted)
    ensures NeatValues(InsertEntry(key, value, sorted))
  {
    hide StrLess, Neat;
    if sorted.Entry? { InsertKeepsNeat(key, value, sorted.rest); }
  }

  lemma {:induction false} SortKeepsNeat(entries: Entries)
    requires NeatValues(entries)
    ensures NeatValues(SortEntries(entries))
  {
    hide Neat;
    if entries.Entry? {
      SortKeepsNeat(entries.rest);
      InsertKeepsNeat(entries.key, entries.value, SortEntries(entries.rest));
    }
  }

  lemma {:induction false} RepairedKeysAreNeat(entries: Entries)
    requires NeatValues(entries)
    ensures NeatKeys(RepairedKeys(entries)) && NeatValues(RepairedKeys(entries))
  {
    hide Neat, PairFree;
    if entries.Entry? {
      if entries.key.StrKey? { RepairedIsPairFree(entries.key.s); }
      RepairedKeysAreNeat(entries.rest);
    }
  }

  lemma {:induction false} NormalIsNeat(p: Payload)
    ensures Neat(Normal(p))
    decreases p, 1
  {
    hide SortEntries, RepairedKeys, PairFree;
    match p
    case Text(_, s) => RepairedIsPairFree(s);
    case List(items) => NormalItemsAreNeat(items);
    case Tuple(items) => NormalItemsAreNeat(items);
    case Dict(entries) =>
      NormalValuesAreNeat(entries);
      SortKeepsNeat(NormalEntries(entries));
      RepairedKeysAreNeat(SortEntries(NormalEntries(entries)));
    case _ =>
  }

  lemma {:induction false} NormalItemsAreNeat(items: Payloads)
    ensures NeatItems(NormalItems(items))
    decreases items, 0
  {
    if items.Cons? {
      NormalIsNeat(items.head);
      NormalItemsAreNeat(items.tail);
    }
  }

  lemma {:induction false} NormalValuesAreNeat(entries: Entries)
    ensures NeatValues(NormalEntries(entries))
    decreases entries, 0
  {
    if entries.Entry? {
      NormalIsNeat(entries.value);
      NormalValuesAreNeat(entries.rest);
    }
  }

  lemma {:induction false} NeatTells(p: Payload, q: Payload)
    requires FaultOf(p).Fine? && FaultOf(q).Fine? && Neat(p) && Neat(q)
    ensures Same(Tagged(p), Tagged(q)) <==> p == q
    decreases p, 1
  {
    hide Utf16, Tagged, IntText, TaggedItems, TaggedEntries, TagName, Chars, TagPair, PairFree;
    RawPairing(p);
    RawPairing(q);
    if p.Null? || q.Null? {
      NullTells(p);
      NullTells(q);
    } else {
      PairsTell(TagOf(p), RawBody(p), TagOf(q), RawBody(q));
      if p.List? && q.List? { NeatItemsTell(p.items, q.items); }
      if p.Dict? && q.Dict? { NeatEntriesTell(p.entries, q.entries); }
      if p.Integer? && q.Integer? && IntText(p.n) == IntText(q.n) { IntTextTells(p.n, q.n); }
      if p.Text? && q.Text? && Utf16(p.s) == Utf16(q.s) { UnitsTell(p.s, q.s); }
    }
  }

  lemma {:induction false} NeatItemsTell(a: Payloads, b: Payloads)
    requires FaultOfItems(a).Fine? && FaultOfItems(b).Fine? && NeatItems(a) && NeatItems(b)
    ensures SameItems(TaggedItems(a), TaggedItems(b)) <==> a == b
    decreases a, 0
  {
    hide Tagged, Same, Neat;
    if a.Cons? && b.Cons? {
      NeatTells(a.head, b.head);
      NeatItemsTell(a.tail, b.tail);
    }
  }

  lemma {:induction false} NeatEntriesTell(a: Entries, b: Entries)
    requires FaultOfEntries(a).Fine? && NeatKeys(a) && NeatValues(a)
    requires FaultOfEntries(b).Fine? && NeatKeys(b) && NeatValues(b)
    ensures SameMembers(TaggedEntries(a), TaggedEntries(b)) <==> a == b
    decreases a, 0
  {
    hide Tagged, Same, Neat, Utf16, PairFree;
    if a.Entry? && b.Entry? {
      if Utf16(a.key.s) == Utf16(b.key.s) { UnitsTell(a.key.s, b.key.s); }
      NeatTells(a.value, b.value);
      NeatEntriesTell(a.rest, b.rest);
    }
  }

  lemma NullTells(p: Payload)
    requires FaultOf(p).Fine?
    ensures Same(Tagged(p), Tagged(Null)) <==> p.Null?
    ensures Same(Tagged(Null), Tagged(p)) <==> p.Null?
  {
    hide Utf16, Tagged, TagName, Chars;
    RawPairing(p);
    RawPairing(Null);
    if !p.Null? {
      var lone := Item(Str(Chars(TagName(NullTag))), NoItems);
      assert !SameItems(Item(RawBody(p), NoItems), lone.tail) && !SameItems(lone.tail, Item(RawBody(p), NoItems));
    }
  }

  lemma PrintTells(j: Json, k: Json)
    ensures Print(j) == Print(k) <==> Same(j, k)
  {
    hide Print, Same;
    if Print(j) == Print(k) {
      assert Print(j) + "" == Print(k) + "";
      ReadOne(j, k, "", "");
    }
    if Same(j, k) { SamePrint(j, k); }
  }

  /** The canonical text is the normal request, printed as it stands. */
  lemma PrintsNormal(p: Payload)
    requires FaultOf(p).Fine?
    ensures FaultOf(Normal(p)).Fine? && CanonicalText(p) == Success(Print(Tagged(Normal(p))))
  {
    hide Sorted, Tagged, Print, Same, Normal;
    NormalPrints(p);
    SamePrint(SortedTagged(p), Tagged(Normal(p)));
  }

  /**
    Any two payloads that raise nothing share their canonical text exactly when their normal
    requests are one: the members of their dictionaries, sorted by the keys as given, agree
    position by position once repaired.
   */
  lemma CollisionsExactly(p: Payload, q: Payload)
    requires FaultOf(p).Fine? && FaultOf(q).Fine?
    ensures CanonicalText(p) == CanonicalText(q) <==> Normal(p) == Normal(q)
  {
    hide CanonicalText, Tagged, Print, Same, Normal, Neat;
    PrintsNormal(p);
    PrintsNormal(q);
    NormalIsNeat(p);
    NormalIsNeat(q);
    PrintTells(Tagged(Normal(p)), Tagged(Normal(q)));
    NeatTells(Normal(p), Normal(q));
  }

  /** A dictionary of two keys. */
  function Two(x: PyStr, p: Payload, y: PyStr, q: Payload): Payload {
    Dict(Entry(StrKey(x), p, Entry(StrKey(y), q, End)))
  }

  lemma TwoIsFine(x: PyStr, p: Payload, y: PyStr, q: Payload)
    requires FaultOf(p).Fine? && FaultOf(q).Fine?
    ensures FaultOf(Two(x, p, y, q)).Fine?
  {
    hide FaultOf;
    assert FaultOfEntries(Entry(StrKey(y), q, End)) == Worse(FaultOf(q), Fine);
    assert FaultOfEntries(Entry(StrKey(x), p, Entry(StrKey(y), q, End))).Fine?;
    FaultOfDict(Entry(StrKey(x), p, Entry(StrKey(y), q, End)));
  }

  lemma FaultOfDict(entries: Entries)
    ensures FaultOf(Dict(entries)) == FaultOfEntries(entries)
  {
  }

  lemma NormalOfTwo(x: PyStr, p: Payload, y: PyStr, q: Payload)
    ensures Normal(Two(x, p, y, q)) == if StrLess(y, x) then Two(Repaired(y), Normal(q), Repaired(x), Normal(p))
                                       else Two(Repaired(x), Normal(p), Repaired(y), Normal(q))
  {
    hide StrLess, Repaired;
    var e, f := Entry(StrKey(x), Normal(p), End), Entry(StrKey(y), Normal(q), End);
    assert NormalEntries(Entry(StrKey(y), q, End)) == f;
    assert NormalEntries(Entry(StrKey(x), p, Entry(StrKey(y), q, End))) == Entry(StrKey(x), Normal(p), f);
    assert SortEntries(f) == f;
    assert SortEntries(Entry(StrKey(x), Normal(p), f)) == InsertEntry(StrKey(x), Normal(p), f);
    assert InsertEntry(StrKey(x), Normal(p), f) ==
           if StrLess(y, x) then Entry(StrKey(y), Normal(q), e) else Entry(StrKey(x), Normal(p), f);
    assert RepairedKeys(e) == Entry(StrKey(Repaired(x)), Normal(p), End);
    assert RepairedKeys(f) == Entry(StrKey(Repaired(y)), Normal(q), End);
  }

  /**
    A key that spells U+1F600 as a surrogate pair collides with the key that has the character,
    except beside a key that sorts between the two spellings.
   */
  lemma KeysCollide(smile: PyStr, pair: PyStr, other: PyStr, p: Payload, q: Payload)
    requires smile == [0x1F600] && pair == [0xD83D, 0xDE00] && PairFree(other) && other != smile
    requires FaultOf(p).Fine? && FaultOf(q).Fine?
    ensures CanonicalText(Two(smile, p, other, q)) == CanonicalText(Two(pair, p, other, q)) <==>
            !(StrLess(pair, other) && StrLess(other, smile))
  {
    TwoIsFine(smile, p, other, q);
    TwoIsFine(pair, p, other, q);
    assert Repaired(pair) == [0x1F600] + Repaired(pair[2..]);
    assert Repaired(smile) == smile && StrLess(pair, smile);
    PairFreeNeedsNoRepair(other);
    hide CanonicalText, Normal, StrLess, Repaired;
    CollisionsExactly(Two(smile, p, other, q), Two(pair, p, other, q));
    NormalOfTwo(smile, p, other, q);
    NormalOfTwo(pair, p, other, q);
    LessIsTotal(pair, other);
    if StrLess(other, pair) {
      LessIsTransitive(other, pair, smile);
      if StrLess(pair, other) {
        LessIsTransitive(pair, other, pair);
        LessIsStrict(pair);
      }
    }
  }
}
