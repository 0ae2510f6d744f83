/**
  The type-tagged canonical encoding of request payloads that idempotency keys are compared by,
  and exactly which payloads share one.
 */
module Canonical {
  import opened Basics
  import opened JsonText
  import opened Surrogates
  import opened MemberOrder

  datatype TextKind = StrText | DecimalText | UuidText | DatetimeText | DateText

  /** A request payload; decimals, UUIDs and dates are what `str` or `isoformat` make of them. */
  datatype Payload =
    | Null
    | Boolean(b: bool)
    | Integer(n: int)
    | Float(repr: NumText)
    | NonFinite
    | Text(kind: TextKind, s: PyStr)
    | List(items: Payloads)
    | Tuple(items: Payloads)
    | Dict(entries: Entries)
    | Unsupported
  datatype Payloads = Nil | Cons(head: Payload, tail: Payloads)
  datatype Entries = End | Entry(key: Key, value: Payload, rest: Entries)  // in insertion order
  datatype Key = StrKey(s: PyStr) | OtherKey

  // --- errors ---

  datatype Fault = Fine | TypeFault | ValueFault

  /** Tagging fails before printing does, wherever the fault is. */
  function Worse(a: Fault, b: Fault): Fault {
    if a.TypeFault? || b.TypeFault? then TypeFault else if a.ValueFault? then a else b
  }

  function FaultOf(p: Payload): Fault {
    match p
    case NonFinite => ValueFault
    case Unsupported => TypeFault
    case List(items) => FaultOfItems(items)
    case Tuple(items) => FaultOfItems(items)
    case Dict(entries) => FaultOfEntries(entries)
    case _ => Fine
  }

  function FaultOfItems(items: Payloads): Fault {
    match items
    case Nil => Fine
    case Cons(head, tail) => Worse(FaultOf(head), FaultOfItems(tail))
  }

  function FaultOfEntries(entries: Entries): Fault {
    match entries
    case End => Fine
    case Entry(key, value, rest) =>
      Worse(if key.StrKey? then FaultOf(value) else TypeFault, FaultOfEntries(rest))
  }

  // --- tagging ---

  datatype Tag = NullTag | BoolTag | IntTag | FloatTag | TextTag(kind: TextKind) | ObjectTag | ArrayTag

  function Chars(s: string): PyStr {
    seq(|s|, i requires 0 <= i < |s| => s[i] as int)
  }

  function TagName(tag: Tag): string {
    match tag
    case NullTag => "null"
    case BoolTag => "bool"
    case IntTag => "int"
    case FloatTag => "float"
    case ObjectTag => "object"
    case ArrayTag => "array"
    case TextTag(StrText) => "str"
    case TextTag(DecimalText) => "decimal"
    case TextTag(UuidText) => "uuid"
    case TextTag(DatetimeText) => "datetime"
    case TextTag(DateText) => "date"
  }

  lemma {:induction false} DigitsAreNumbers(n: nat)
    ensures Digits(n) != "" && '0' <= Digits(n)[0] <= '9'
    ensures forall i :: 0 <= i < |Digits(n)| ==> '0' <= Digits(n)[i] <= '9'
  {
    if n >= 10 { DigitsAreNumbers(n / 10); }
  }

  function IntText(n: int): NumText {
    DigitsAreNumbers(if n < 0 then -n else n);
    var text := if n < 0 then "-" + Digits(-n) else Digits(n);
    assert forall i :: 0 <= i < |text| ==> NumberChar(text[i]);
    text
  }

  function TagPair(tag: Tag, value: Json): Json {
    Arr(Item(Str(Chars(TagName(tag))), Item(value, NoItems)))
  }

  function Tagged(p: Payload): Json
    requires FaultOf(p).Fine?
  {
    match p
    case Null => Arr(Item(Str(Chars(TagName(NullTag))), NoItems))
    case Boolean(b) => TagPair(BoolTag, Bool(b))
    case Integer(n) => TagPair(IntTag, Num(IntText(n)))
    case Float(repr) => TagPair(FloatTag, Num(repr))
    case Text(kind, s) => TagPair(TextTag(kind), Str(s))
    case List(items) => TagPair(ArrayTag, Arr(TaggedItems(items)))
    case Tuple(items) => TagPair(ArrayTag, Arr(TaggedItems(items)))
    case Dict(entries) => TagPair(ObjectTag, Obj(TaggedEntries(entries)))
  }

  function TaggedItems(items: Payloads): Items
    requires FaultOfItems(items).Fine?
  {
    match items
    case Nil => NoItems
    case Cons(head, tail) => Item(Tagged(head), TaggedItems(tail))
  }

  function TaggedEntries(entries: Entries): Members
    requires FaultOfEntries(entries).Fine?
  {
    match entries
    case End => NoMembers
    case Entry(key, value, rest) => Member(key.s, Tagged(value), TaggedEntries(rest))
  }

  /** The text whose digest is stored, or the exception the payload raises. */
  function CanonicalText(p: Payload): Result<string, Fault> {
    if FaultOf(p).Fine? then Success(Dumps(Tagged(p))) else Failure(FaultOf(p))
  }

  // --- what "the same payload" means ---

  function Find(entries: Entries, key: PyStr): Option<Payload>
    ensures Find(entries, key).Some? ==> Find(entries, key).value < entries
  {
    match entries
    case End => None
    case Entry(k, value, rest) => if k == StrKey(key) then Some(value) else Find(rest, key)
  }

  /** Equal up to list versus tuple and the insertion order of dictionaries. */
  ghost predicate Equivalent(p: Payload, q: Payload)
    decreases p
  {
    if (p.List? || p.Tuple?) && (q.List? || q.Tuple?) then EquivalentItems(p.items, q.items)
    else if p.Dict? && q.Dict? then
      forall key: PyStr ::
        var v, w := Find(p.entries, key), Find(q.entries, key);
        (v.Some? <==> w.Some?) && (v.Some? && w.Some? ==> Equivalent(v.value, w.value))
    else p == q
  }

  ghost predicate EquivalentItems(a: Payloads, b: Payloads)
    decreases a
  {
    match (a, b)
    case (Nil, Nil) => true
    case (Cons(p, ps), Cons(q, qs)) => Equivalent(p, q) && EquivalentItems(ps, qs)
    case _ => false
  }

  /** A Python dictionary has every key once. */
  predicate KeysOnce(p: Payload) {
    match p
    case List(items) => KeysOnceItems(items)
    case Tuple(items) => KeysOnceItems(items)
    case Dict(entries) => KeysOnceEntries(entries)
    case _ => true
  }

  predicate KeysOnceItems(items: Payloads) {
    items.Cons? ==> KeysOnce(items.head) && KeysOnceItems(items.tail)
  }

  predicate KeysOnceEntries(entries: Entries) {
    entries.Entry? ==>
      KeysOnce(entries.value) && KeysOnceEntries(entries.rest) &&
      (entries.key.StrKey? ==> Find(entries.rest, entries.key.s).None?)
  }

  /** Every string and key is free of surrogate pairs spelled as two code points. */
  predicate Proper(p: Payload) {
    match p
    case Text(_, s) => PairFree(s)
    case List(items) => ProperItems(items)
    case Tuple(items) => ProperItems(items)
    case Dict(entries) => ProperEntries(entries)
    case _ => true
  }

  predicate ProperItems(items: Payloads) {
    items.Cons? ==> Proper(items.head) && ProperItems(items.tail)
  }

  predicate ProperEntries(entries: Entries) {
    entries.Entry? ==>
      (entries.key.StrKey? ==> PairFree(entries.key.s)) && Proper(entries.value) && ProperEntries(entries.rest)
  }

  // --- numbers and tags tell ---

  lemma {:induction false} DigitsTell(m: nat, n: nat)
    requires Digits(m) == Digits(n)
    ensures m == n
  {
    var s, t := Digits(m), Digits(n);
    if m >= 10 { DigitsAreNumbers(m / 10); }
    if n >= 10 { DigitsAreNumbers(n / 10); }
    assert s[|s| - 1] == t[|t| - 1];
    assert m % 10 == n % 10;
    if m >= 10 && n >= 10 {
      assert s[..|s| - 1] == t[..|t| - 1];
      DigitsTell(m / 10, n / 10);
    }
  }

  lemma IntTextTells(m: int, n: int)
    requires IntText(m) == IntText(n)
    ensures m == n
  {
    var a, b := if m < 0 then -m else m, if n < 0 then -n else n;
    DigitsAreNumbers(a);
    DigitsAreNumbers(b);
    hide Digits;
    assert m < 0 <==> IntText(m)[0] == '-';
    assert n < 0 <==> IntText(n)[0] == '-';
    if m < 0 { assert IntText(m)[1..] == Digits(a) && IntText(n)[1..] == Digits(b); }
    DigitsTell(a, b);
  }

  lemma {:induction false} CharsArePairFree(s: PyStr)
    requires forall i :: 0 <= i < |s| ==> s[i] < 0xD800
    ensures PairFree(s)
  {
    if s != [] { CharsArePairFree(s[1..]); }
  }

  lemma TagNamesTell(a: Tag, b: Tag)
    requires TagName(a) == TagName(b)
    ensures a == b
  {
  }

  lemma TagIsPlain(a: Tag, i: nat)
    requires i < |TagName(a)|
    ensures 'a' <= TagName(a)[i] <= 'z'
  {
  }

  lemma TagsTell(a: Tag, b: Tag)
    requires Utf16(Chars(TagName(a))) == Utf16(Chars(TagName(b)))
    ensures a == b
  {
    hide TagName, Utf16;
    var s, t := Chars(TagName(a)), Chars(TagName(b));
    forall i | 0 <= i < |s| ensures s[i] < 0xD800 { TagIsPlain(a, i); }
    forall i | 0 <= i < |t| ensures t[i] < 0xD800 { TagIsPlain(b, i); }
    CharsArePairFree(s);
    CharsArePairFree(t);
    UnitsTell(s, t);
    forall i | 0 <= i < |s| ensures TagName(a)[i] == TagName(b)[i] {
      assert s[i] == TagName(a)[i] as int && t[i] == TagName(b)[i] as int;
    }
    assert TagName(a) == TagName(b);
    TagNamesTell(a, b);
  }

  // --- the same text exactly for the same payload ---

  function SortedTagged(p: Payload): Json
    requires FaultOf(p).Fine?
  {
    Sorted(Tagged(p))
  }

  /** The members of a tagged dictionary are its entries, value by value. */
  lemma {:induction false} MembersOf(entries: Entries, key: PyStr)
    requires FaultOfEntries(entries).Fine?
    ensures Find(entries, key).Some? ==> FaultOf(Find(entries, key).value).Fine?
    ensures Lookup(SortedMembers(TaggedEntries(entries)), key) ==
            if Find(entries, key).Some? then Some(SortedTagged(Find(entries, key).value)) else None
  {
    hide Tagged, Sorted;
    if entries.Entry? { MembersOf(entries.rest, key); }
  }

  lemma {:induction false} MembersOnce(entries: Entries)
    requires FaultOfEntries(entries).Fine? && KeysOnceEntries(entries)
    ensures Once(SortedMembers(TaggedEntries(entries)))
  {
    if entries.Entry? {
      MembersOnce(entries.rest);
      MembersOf(entries.rest, entries.key.s);
    }
  }

  lemma {:induction false} MembersProper(entries: Entries)
    requires FaultOfEntries(entries).Fine? && ProperEntries(entries)
    ensures ProperKeys(SortedMembers(TaggedEntries(entries)))
  {
    if entries.Entry? { MembersProper(entries.rest); }
  }

  lemma {:induction false} FoundIsGood(entries: Entries, key: PyStr)
    requires Find(entries, key).Some?
    ensures KeysOnceEntries(entries) ==> KeysOnce(Find(entries, key).value)
    ensures ProperEntries(entries) ==> Proper(Find(entries, key).value)
  {
    if entries.key != StrKey(key) { FoundIsGood(entries.rest, key); }
  }

  /** It raises nothing, and both conditions hold. */
  ghost predicate Admissible(p: Payload) {
    FaultOf(p).Fine? && KeysOnce(p) && Proper(p)
  }

  function BodyOf(p: Payload): Json
    requires FaultOf(p).Fine? && !p.Null?
  {
    match p
    case Boolean(b) => Bool(b)
    case Integer(n) => Num(IntText(n))
    case Float(repr) => Num(repr)
    case Text(_, s) => Str(s)
    case List(items) => Arr(SortedItems(TaggedItems(items)))
    case Tuple(items) => Arr(SortedItems(TaggedItems(items)))
    case Dict(entries) => Obj(Sort(SortedMembers(TaggedEntries(entries))))
  }

  function TagOf(p: Payload): Tag
    requires FaultOf(p).Fine?
  {
    match p
    case Null => NullTag
    case Boolean(_) => BoolTag
    case Integer(_) => IntTag
    case Float(_) => FloatTag
    case Text(kind, _) => TextTag(kind)
    case List(_) => ArrayTag
    case Tuple(_) => ArrayTag
    case Dict(_) => ObjectTag
  }

  /** What is printed is the tag next to the body. */
  lemma Pairing(p: Payload)
    requires FaultOf(p).Fine?
    ensures SortedTagged(p) == if p.Null? then Arr(Item(Str(Chars(TagName(NullTag))), NoItems))
                               else TagPair(TagOf(p), BodyOf(p))
  {
    hide TagName, Chars, Sort, TaggedItems, TaggedEntries, SortedMembers, IntText;
    var name := Str(Chars(TagName(TagOf(p))));
    if p.Null? {
      assert SortedItems(Item(name, NoItems)) == Item(name, NoItems);
    } else {
      match p
      case Boolean(b) => PairSorted(TagOf(p), Bool(b));
      case Integer(n) => PairSorted(TagOf(p), Num(IntText(n)));
      case Float(repr) => PairSorted(TagOf(p), Num(repr));
      case Text(_, s) => PairSorted(TagOf(p), Str(s));
      case List(items) => PairSorted(TagOf(p), Arr(TaggedItems(items)));
      case Tuple(items) => PairSorted(TagOf(p), Arr(TaggedItems(items)));
      case Dict(entries) => PairSorted(TagOf(p), Obj(TaggedEntries(entries)));
    }
  }

  lemma PairSorted(tag: Tag, value: Json)
    ensures Sorted(TagPair(tag, value)) == TagPair(tag, Sorted(value))
  {
    hide TagName, Chars, Sort, SortedMembers;
    var name := Str(Chars(TagName(tag)));
    assert SortedItems(Item(value, NoItems)) == Item(Sorted(value), NoItems);
    assert SortedItems(Item(name, Item(value, NoItems))) == Item(name, Item(Sorted(value), NoItems));
  }

  lemma PairsTell(a: Tag, v: Json, b: Tag, w: Json)
    ensures Same(TagPair(a, v), TagPair(b, w)) <==> a == b && Same(v, w)
  {
    hide Utf16, TagName, Chars;
    var s, t := Str(Chars(TagName(a))), Str(Chars(TagName(b)));
    assert SameItems(Item(v, NoItems), Item(w, NoItems)) <==> Same(v, w);
    assert Same(TagPair(a, v), TagPair(b, w)) <==> Same(s, t) && Same(v, w);
    if Same(s, t) { TagsTell(a, b); }
  }

  /** The tag and the body are told apart separately. */
  lemma TagAndBody(p: Payload, q: Payload)
    requires FaultOf(p).Fine? && FaultOf(q).Fine?
    ensures Same(SortedTagged(p), SortedTagged(q)) <==>
            TagOf(p) == TagOf(q) && (!p.Null? && !q.Null? ==> Same(BodyOf(p), BodyOf(q)))
  {
    hide SortedTagged, BodyOf, TagName, Chars;
    Pairing(p);
    Pairing(q);
    if !p.Null? && !q.Null? {
      PairsTell(TagOf(p), BodyOf(p), TagOf(q), BodyOf(q));
    } else {
      var lone := Item(Str(Chars(TagName(NullTag))), NoItems);
      assert SameItems(lone, lone);
      assert !p.Null? ==> !SameItems(Item(BodyOf(p), NoItems), lone.tail);
      assert !q.Null? ==> !SameItems(lone.tail, Item(BodyOf(q), NoItems));
    }
  }

  lemma {:induction false} SameExactly(p: Payload, q: Payload)
    requires Admissible(p) && Admissible(q)
    ensures Same(SortedTagged(p), SortedTagged(q)) <==> Equivalent(p, q)
    decreases p, 1
  {
    hide Utf16, Sorted, Tagged, Sort, TaggedItems, TaggedEntries, SortedMembers, SortedItems, IntText;
    TagAndBody(p, q);
    if p.Dict? && q.Dict? {
      SameDicts(p, q);
    } else if (p.List? || p.Tuple?) && (q.List? || q.Tuple?) {
      SameSequences(p.items, q.items);
    } else if p.Integer? && q.Integer? {
      if IntText(p.n) == IntText(q.n) { IntTextTells(p.n, q.n); }
    } else if p.Text? && q.Text? {
      if Utf16(p.s) == Utf16(q.s) { UnitsTell(p.s, q.s); }
    }
  }

  lemma {:induction false} SameSequences(a: Payloads, b: Payloads)
    requires FaultOfItems(a).Fine? && KeysOnceItems(a) && ProperItems(a)
    requires FaultOfItems(b).Fine? && KeysOnceItems(b) && ProperItems(b)
    ensures SameItems(SortedItems(TaggedItems(a)), SortedItems(TaggedItems(b))) <==> EquivalentItems(a, b)
    decreases a, 0
  {
    hide Utf16, Sorted, Tagged;
    if a.Cons? && b.Cons? {
      SameExactly(a.head, b.head);
      SameSequences(a.tail, b.tail);
    }
  }

  lemma {:induction false} SameDicts(p: Payload, q: Payload)
    requires Admissible(p) && Admissible(q) && p.Dict? && q.Dict?
    ensures SameMembers(Sort(SortedMembers(TaggedEntries(p.entries))), Sort(SortedMembers(TaggedEntries(q.entries))))
            <==> Equivalent(p, q)
    decreases p, 0
  {
    hide Utf16, Sorted, Tagged, Sort, SortedMembers, TaggedEntries, SameMembers, Lookup, Once, ProperKeys;
    var a, b := SortedMembers(TaggedEntries(p.entries)), SortedMembers(TaggedEntries(q.entries));
    MembersOnce(p.entries);
    MembersOnce(q.entries);
    MembersProper(p.entries);
    MembersProper(q.entries);
    SortedAlike(a, b);
    forall key: PyStr
      ensures var v, w := Find(p.entries, key), Find(q.entries, key);
              MatchAt(a, b, key) <==>
                (v.Some? <==> w.Some?) && (v.Some? && w.Some? ==> Equivalent(v.value, w.value))
    {
      SameEntry(p.entries, q.entries, key);
    }
  }

  lemma {:induction false} SameEntry(a: Entries, b: Entries, key: PyStr)
    requires FaultOfEntries(a).Fine? && KeysOnceEntries(a) && ProperEntries(a)
    requires FaultOfEntries(b).Fine? && KeysOnceEntries(b) && ProperEntries(b)
    ensures var v, w := Find(a, key), Find(b, key);
            MatchAt(SortedMembers(TaggedEntries(a)), SortedMembers(TaggedEntries(b)), key) <==>
              (v.Some? <==> w.Some?) && (v.Some? && w.Some? ==> Equivalent(v.value, w.value))
    decreases a
  {
    hide Utf16, Sorted, Tagged, SortedMembers, TaggedEntries, Lookup;
    MembersOf(a, key);
    MembersOf(b, key);
    if Find(a, key).Some? && Find(b, key).Some? {
      FoundIsGood(a, key);
      FoundIsGood(b, key);
      SameExactly(Find(a, key).value, Find(b, key).value);
    }
  }

  /**
    Proper payloads have the same canonical text exactly when they are the same request:
    equal up to list versus tuple and the insertion order of dictionaries.
   */
  lemma CanonicalTextTells(p: Payload, q: Payload)
    requires Admissible(p) && Admissible(q)
    ensures CanonicalText(p) == CanonicalText(q) <==> Equivalent(p, q)
  {
    hide Dumps, Sorted, Tagged;
    DumpsTell(Tagged(p), Tagged(q));
    SameExactly(p, q);
  }

  /** For strings the condition cannot be dropped: an improper one shares its text with a different, proper one. */
  lemma StringsAreToldApart(s: PyStr)
    ensures PairFree(s) <==>
            forall t: PyStr | PairFree(t) :: CanonicalText(Text(StrText, t)) == CanonicalText(Text(StrText, s)) ==>
                t == s
  {
    hide Sorted, Tagged, Dumps;
    TextTellsProperStrings(s);
    forall t: PyStr
      ensures CanonicalText(Text(StrText, t)) == CanonicalText(Text(StrText, s)) <==> Quoted(t) == Quoted(s)
    {
      DumpsTell(Tagged(Text(StrText, t)), Tagged(Text(StrText, s)));
      TagAndBody(Text(StrText, t), Text(StrText, s));
      QuotedSame(t, s);
    }
  }
}
