/**
  The text `json.dumps(..., sort_keys=True, separators=(",", ":"))` prints, with non-ASCII
  characters escaped, and why it can be read in one way only (RFC 8259, sections 4 to 7).
 */
module JsonText {

  /** Python strings are sequences of code points, lone surrogates included. */
  type CodePoint = c: int | 0 <= c <= 0x10FFFF
  type PyStr = seq<CodePoint>
  type CodeUnit = u: int | 0 <= u <= 0xFFFF

  predicate NumberChar(c: char) {
    '0' <= c <= '9' || c == '-' || c == '+' || c == '.' || c == 'e'
  }

  /** The text of an integer or of a finite float. */
  type NumText = s: string | s != "" && ('0' <= s[0] <= '9' || s[0] == '-') && forall c :: c in s ==> NumberChar(c)
    witness "0"

  datatype Json =
    | Bool(b: bool)
    | Num(text: NumText)
    | Str(s: PyStr)
    | Arr(items: Items)
    | Obj(members: Members)
  datatype Items = NoItems | Item(head: Json, tail: Items)
  datatype Members = NoMembers | Member(key: PyStr, value: Json, rest: Members)

  // --- strings ---

  predicate High(c: int) { 0xD800 <= c <= 0xDBFF }

  predicate Low(c: int) { 0xDC00 <= c <= 0xDFFF }

  function HexDigit(d: int): char
    requires 0 <= d < 16
  {
    "0123456789abcdef"[d]
  }

  function Hex4(u: CodeUnit): string {
    [HexDigit(u / 4096), HexDigit(u / 256 % 16), HexDigit(u / 16 % 16), HexDigit(u % 16)]
  }

  /** One UTF-16 code unit: printable ASCII as it is, a two-character escape, or \uXXXX. */
  function EmitUnit(u: CodeUnit): string {
    if u == 0x22 then "\\\""
    else if u == 0x5C then "\\\\"
    else if u == 0x0A then "\\n"
    else if u == 0x0D then "\\r"
    else if u == 0x09 then "\\t"
    else if u == 0x0C then "\\f"
    else if u == 0x08 then "\\b"
    else if 0x20 <= u <= 0x7E then [u as char]
    else "\\u" + Hex4(u)
  }

  function HighOf(c: CodePoint): CodeUnit
    requires c > 0xFFFF
  {
    0xD800 + (c - 0x10000) / 0x400
  }

  function LowOf(c: CodePoint): CodeUnit
    requires c > 0xFFFF
  {
    0xDC00 + (c - 0x10000) % 0x400
  }

  /** How the encoder escapes one character; beyond the basic plane it writes a surrogate pair. */
  function EscapeChar(c: CodePoint): string {
    if c <= 0xFFFF then EmitUnit(c) else EmitUnit(HighOf(c)) + EmitUnit(LowOf(c))
  }

  function EscapeAll(s: PyStr): string {
    if s == [] then "" else EscapeChar(s[0]) + EscapeAll(s[1..])
  }

  function Quoted(s: PyStr): string {
    "\"" + EscapeAll(s) + "\""
  }

  /** Python's string order: by code points, a proper prefix first. */
  predicate StrLess(a: PyStr, b: PyStr) {
    b != [] && (a == [] || a[0] < b[0] || (a[0] == b[0] && StrLess(a[1..], b[1..])))
  }

  // --- printing ---

  function Insert(key: PyStr, value: Json, sorted: Members): Members {
    match sorted
    case NoMembers => Member(key, value, NoMembers)
    case Member(k, v, rest) =>
      if StrLess(k, key) then Member(k, v, Insert(key, value, rest)) else Member(key, value, sorted)
  }

  function Sort(m: Members): Members {
    match m
    case NoMembers => NoMembers
    case Member(k, v, rest) => Insert(k, v, Sort(rest))
  }

  /** Every object's members in key order, all the way down. */
  function Sorted(j: Json): Json {
    match j
    case Arr(items) => Arr(SortedItems(items))
    case Obj(members) => Obj(Sort(SortedMembers(members)))
    case _ => j
  }

  function SortedItems(items: Items): Items {
    match items
    case NoItems => NoItems
    case Item(head, tail) => Item(Sorted(head), SortedItems(tail))
  }

  function SortedMembers(m: Members): Members {
    match m
    case NoMembers => NoMembers
    case Member(k, v, rest) => Member(k, Sorted(v), SortedMembers(rest))
  }

  function Print(j: Json): string {
    match j
    case Bool(b) => if b then "true" else "false"
    case Num(text) => text
    case Str(s) => Quoted(s)
    case Arr(items) => "[" + PrintFirst(items)
    case Obj(members) => "{" + PrintFirstMember(members)
  }

  function PrintFirst(items: Items): string {
    match items
    case NoItems => "]"
    case Item(head, tail) => Print(head) + PrintMore(tail)
  }

  function PrintFirstMember(m: Members): string {
    match m
    case NoMembers => "}"
    case Member(k, v, rest) => Quoted(k) + (":" + (Print(v) + PrintMembers(rest)))
  }

  function PrintMore(items: Items): string {
    match items
    case NoItems => "]"
    case Item(head, tail) => "," + (Print(head) + PrintMore(tail))
  }

  function PrintMembers(m: Members): string {
    match m
    case NoMembers => "}"
    case Member(k, v, rest) => "," + (Quoted(k) + (":" + (Print(v) + PrintMembers(rest))))
  }

  function Dumps(j: Json): string {
    Print(Sorted(j))
  }

  // --- UTF-16 ---

  function Units(c: CodePoint): seq<CodeUnit> {
    if c <= 0xFFFF then [c] else [HighOf(c), LowOf(c)]
  }

  function Utf16(s: PyStr): seq<CodeUnit> {
    if s == [] then [] else Units(s[0]) + Utf16(s[1..])
  }

  function EmitAll(u: seq<CodeUnit>): string {
    if u == [] then "" else EmitUnit(u[0]) + EmitAll(u[1..])
  }

  lemma {:induction false} EmitAppend(u: seq<CodeUnit>, v: seq<CodeUnit>)
    ensures EmitAll(u + v) == EmitAll(u) + EmitAll(v)
    decreases |u|
  {
    hide EmitUnit;
    if u == [] {
      assert u + v == v;
    } else {
      EmitAppend(u[1..], v);
      assert (u + v)[1..] == u[1..] + v;
    }
  }

  lemma EscapeIsUnits(c: CodePoint)
    ensures EscapeChar(c) == EmitAll(Units(c))
  {
    hide EmitUnit;
    if c <= 0xFFFF {
      assert EmitAll([c]) == EmitUnit(c) + EmitAll([]);
    } else {
      var h, l := HighOf(c), LowOf(c);
      assert [h, l][1..] == [l];
      assert EmitAll([l]) == EmitUnit(l) + EmitAll([]);
    }
  }

  lemma {:induction false} EscapesAreUnits(s: PyStr)
    ensures EscapeAll(s) == EmitAll(Utf16(s))
  {
    hide EscapeChar, Units;
    if s != [] {
      EscapeIsUnits(s[0]);
      EscapesAreUnits(s[1..]);
      EmitAppend(Units(s[0]), Utf16(s[1..]));
    }
  }

  lemma HexDigitsTell(a: int, b: int)
    requires 0 <= a < 16 && 0 <= b < 16 && HexDigit(a) == HexDigit(b)
    ensures a == b
  {
  }

  lemma ByDigits(u: CodeUnit)
    ensures u == u / 4096 * 4096 + u / 256 % 16 * 256 + u / 16 % 16 * 16 + u % 16
  {
    assert u / 16 / 16 == u / 256;
    assert u / 256 / 16 == u / 4096;
  }

  lemma {:induction false} Hex4Tells(u: CodeUnit, v: CodeUnit)
    requires Hex4(u) == Hex4(v)
    ensures u == v
  {
    ByDigits(u);
    ByDigits(v);
    var s, t := Hex4(u), Hex4(v);
    hide HexDigit;
    assert s[0] == t[0] && s[1] == t[1] && s[2] == t[2] && s[3] == t[3];
    HexDigitsTell(u / 4096, v / 4096);
    HexDigitsTell(u / 256 % 16, v / 256 % 16);
    HexDigitsTell(u / 16 % 16, v / 16 % 16);
    HexDigitsTell(u % 16, v % 16);
  }

  predicate LongEscape(u: CodeUnit) {
    |EmitUnit(u)| == 6
  }

  lemma EmitUnitForm(u: CodeUnit)
    ensures 1 <= |EmitUnit(u)| && EmitUnit(u)[0] != '"'
    ensures EmitUnit(u)[0] == '\\' <==> |EmitUnit(u)| != 1
    ensures |EmitUnit(u)| == 1 ==> EmitUnit(u)[0] == u as char
    ensures |EmitUnit(u)| == 1 || |EmitUnit(u)| == 2 || (|EmitUnit(u)| == 6 && EmitUnit(u) == "\\u" + Hex4(u))
    ensures |EmitUnit(u)| == 2 ==> EmitUnit(u)[1] != 'u'
  {
  }

  /** No unit's text begins another's. */
  lemma OneUnit(u: CodeUnit, v: CodeUnit, r: string, q: string)
    requires EmitUnit(u) + r == EmitUnit(v) + q
    ensures u == v && r == q
  {
    EmitUnitForm(u);
    EmitUnitForm(v);
    var t := EmitUnit(u) + r;
    assert t[0] == EmitUnit(u)[0] == EmitUnit(v)[0];
    assert |EmitUnit(u)| == |EmitUnit(v)| by {
      if |EmitUnit(u)| > 1 { assert t[1] == EmitUnit(u)[1] == EmitUnit(v)[1]; }
    }
    assert EmitUnit(u) == t[..|EmitUnit(u)|] == EmitUnit(v);
    assert r == t[|EmitUnit(u)|..] == q;
    if LongEscape(u) {
      assert Hex4(u) == EmitUnit(u)[2..] == EmitUnit(v)[2..] == Hex4(v);
      Hex4Tells(u, v);
    }
  }

  lemma {:induction false} AllUnits(u: seq<CodeUnit>, v: seq<CodeUnit>, r: string, q: string)
    requires EmitAll(u) + ("\"" + r) == EmitAll(v) + ("\"" + q)
    ensures u == v && r == q
    decreases |u|
  {
    hide EmitUnit;
    var t := EmitAll(u) + ("\"" + r);
    if u != [] { EmitUnitForm(u[0]); assert t[0] == EmitUnit(u[0])[0]; }
    if v != [] { EmitUnitForm(v[0]); assert t[0] == EmitUnit(v[0])[0]; }
    if u == [] || v == [] {
      assert u == v;
      assert r == t[1..] && q == t[1..];
    } else {
      var r', q' := EmitAll(u[1..]) + ("\"" + r), EmitAll(v[1..]) + ("\"" + q);
      assert t == EmitUnit(u[0]) + r' && t == EmitUnit(v[0]) + q';
      OneUnit(u[0], v[0], r', q');
      AllUnits(u[1..], v[1..], r, q);
      assert u == [u[0]] + u[1..] && v == [v[0]] + v[1..];
    }
  }

  /** A quoted string ends where it ends, and tells its UTF-16 form. */
  lemma {:induction false} OneString(s: PyStr, t: PyStr, r: string, q: string)
    requires Quoted(s) + r == Quoted(t) + q
    ensures Utf16(s) == Utf16(t) && r == q
  {
    EscapesAreUnits(s);
    EscapesAreUnits(t);
    hide EscapeAll, EmitAll, Utf16;
    assert (Quoted(s) + r)[1..] == EmitAll(Utf16(s)) + ("\"" + r);
    assert (Quoted(t) + q)[1..] == EmitAll(Utf16(t)) + ("\"" + q);
    AllUnits(Utf16(s), Utf16(t), r, q);
  }

  /** The same text, whatever follows, is the same UTF-16 form. */
  lemma {:induction false} QuotedSame(s: PyStr, t: PyStr)
    ensures Quoted(s) == Quoted(t) <==> Utf16(s) == Utf16(t)
  {
    EscapesAreUnits(s);
    EscapesAreUnits(t);
    if Quoted(s) == Quoted(t) { OneString(s, t, "", ""); }
  }

  // --- the printed text can be read in one way only ---

  /** Equal up to the UTF-16 form of every string and key. */
  predicate Same(j: Json, k: Json) {
    match (j, k)
    case (Bool(a), Bool(b)) => a == b
    case (Num(a), Num(b)) => a == b
    case (Str(a), Str(b)) => Utf16(a) == Utf16(b)
    case (Arr(a), Arr(b)) => SameItems(a, b)
    case (Obj(a), Obj(b)) => SameMembers(a, b)
    case _ => false
  }

  predicate SameItems(a: Items, b: Items) {
    match (a, b)
    case (NoItems, NoItems) => true
    case (Item(j, js), Item(k, ks)) => Same(j, k) && SameItems(js, ks)
    case _ => false
  }

  predicate SameMembers(a: Members, b: Members) {
    match (a, b)
    case (NoMembers, NoMembers) => true
    case (Member(x, j, js), Member(y, k, ks)) => Utf16(x) == Utf16(y) && Same(j, k) && SameMembers(js, ks)
    case _ => false
  }

  /** What may follow a number. */
  predicate Stops(r: string) {
    r == "" || !NumberChar(r[0])
  }

  /** How far the number at the start of a text reaches. */
  function NumberLength(t: string): nat {
    if t != "" && NumberChar(t[0]) then 1 + NumberLength(t[1..]) else 0
  }

  lemma {:induction false} NumberEnds(a: string, r: string)
    requires Stops(r) && forall c :: c in a ==> NumberChar(c)
    ensures NumberLength(a + r) == |a|
  {
    if a == "" {
      assert a + r == r;
    } else {
      NumberEnds(a[1..], r);
      assert (a + r)[1..] == a[1..] + r;
      assert a[0] in a;
    }
  }

  lemma OneNumber(a: NumText, b: NumText, r: string, q: string)
    requires a + r == b + q && Stops(r) && Stops(q)
    ensures a == b && r == q
  {
    NumberEnds(a, r);
    NumberEnds(b, q);
    var t := a + r;
    assert a == t[..|a|] && b == t[..|b|] && r == t[|a|..] && q == t[|b|..];
  }

  predicate Opens(j: Json, c: char) {
    match j
    case Bool(b) => c == if b then 't' else 'f'
    case Num(text) => '0' <= c <= '9' || c == '-'
    case Str(_) => c == '"'
    case Arr(_) => c == '['
    case Obj(_) => c == '{'
  }

  lemma FirstChar(j: Json)
    ensures Print(j) != "" && Opens(j, Print(j)[0])
  {
    hide EscapeAll;
  }

  /** The first character tells the kind of value. */
  lemma SameOpening(j: Json, k: Json, r: string, q: string)
    requires Print(j) + r == Print(k) + q
    ensures j.Bool? <==> k.Bool?
    ensures j.Bool? && k.Bool? ==> j == k
    ensures j.Num? <==> k.Num?
    ensures j.Str? <==> k.Str?
    ensures j.Arr? <==> k.Arr?
  {
    hide Print;
    FirstChar(j);
    FirstChar(k);
    assert (Print(j) + r)[0] == Print(j)[0] && (Print(k) + q)[0] == Print(k)[0];
  }

  lemma TailsStop(items: Items, m: Members, r: string)
    ensures PrintMore(items) != "" && PrintMembers(m) != "" && Stops(PrintMore(items) + r) && Stops(PrintMembers(m) + r)
  {
  }

  lemma {:induction false} ReadOne(j: Json, k: Json, r: string, q: string)
    requires Print(j) + r == Print(k) + q && Stops(r) && Stops(q)
    ensures Same(j, k) && r == q
    decreases j
  {
    hide Quoted, NumberChar, Utf16, PrintFirst, PrintFirstMember, Stops;
    SameOpening(j, k, r, q);
    var t := Print(j) + r;
    match j
    case Bool(a) => assert r == t[|Print(j)|..] == q;
    case Num(a) => OneNumber(a, k.text, r, q);
    case Str(a) => OneString(a, k.s, r, q);
    case Arr(a) =>
      assert t[1..] == PrintFirst(a) + r == PrintFirst(k.items) + q;
      ReadFirst(a, k.items, r, q);
    case Obj(a) =>
      assert t[1..] == PrintFirstMember(a) + r == PrintFirstMember(k.members) + q;
      ReadFirstMember(a, k.members, r, q);
  }

  lemma {:induction false} ReadFirst(a: Items, b: Items, r: string, q: string)
    requires PrintFirst(a) + r == PrintFirst(b) + q
    ensures SameItems(a, b) && r == q
    decreases a, 1
  {
    var t := PrintFirst(a) + r;
    if a.Item? { FirstChar(a.head); assert t[0] == Print(a.head)[0]; }
    if b.Item? { FirstChar(b.head); assert t[0] == Print(b.head)[0]; }
    if a.Item? && b.Item? {
      ReadPair(a, b, r, q);
    } else {
      assert a.NoItems? && b.NoItems?;
      assert r == t[1..] == q;
    }
  }

  lemma {:induction false} ReadPair(a: Items, b: Items, r: string, q: string)
    requires a.Item? && b.Item?
    requires Print(a.head) + PrintMore(a.tail) + r == Print(b.head) + PrintMore(b.tail) + q
    ensures SameItems(a, b) && r == q
    decreases a, 0
  {
    hide Print, PrintMore;
    assert Print(a.head) + PrintMore(a.tail) + r == Print(a.head) + (PrintMore(a.tail) + r);
    assert Print(b.head) + PrintMore(b.tail) + q == Print(b.head) + (PrintMore(b.tail) + q);
    TailsStop(a.tail, NoMembers, r);
    TailsStop(b.tail, NoMembers, q);
    ReadOne(a.head, b.head, PrintMore(a.tail) + r, PrintMore(b.tail) + q);
    ReadMore(a.tail, b.tail, r, q);
  }

  lemma {:induction false} ReadMore(a: Items, b: Items, r: string, q: string)
    requires PrintMore(a) + r == PrintMore(b) + q
    ensures SameItems(a, b) && r == q
    decreases a, 1
  {
    hide Print;
    var t := PrintMore(a) + r;
    if a.Item? && b.Item? {
      assert t[1..] == Print(a.head) + PrintMore(a.tail) + r == Print(b.head) + PrintMore(b.tail) + q;
      ReadPair(a, b, r, q);
    } else {
      assert t[0] == PrintMore(a)[0] == PrintMore(b)[0];
      assert a.NoItems? && b.NoItems?;
      assert r == t[1..] == q;
    }
  }

  lemma {:induction false} ReadFirstMember(a: Members, b: Members, r: string, q: string)
    requires PrintFirstMember(a) + r == PrintFirstMember(b) + q
    ensures SameMembers(a, b) && r == q
    decreases a, 1
  {
    hide Print, EscapeAll;
    var t := PrintFirstMember(a) + r;
    if a.Member? { assert t[0] == '"'; }
    if b.Member? { assert t[0] == '"'; }
    if a.Member? && b.Member? {
      ReadMemberPair(a, b, r, q);
    } else {
      assert r == t[1..] == q;
    }
  }

  lemma {:induction false} ReadMemberPair(a: Members, b: Members, r: string, q: string)
    requires a.Member? && b.Member?
    requires Quoted(a.key) + (":" + (Print(a.value) + PrintMembers(a.rest))) + r ==
             Quoted(b.key) + (":" + (Print(b.value) + PrintMembers(b.rest))) + q
    ensures SameMembers(a, b) && r == q
    decreases a, 0
  {
    hide Print, PrintMembers, Quoted, Utf16;
    var r2, q2 := PrintMembers(a.rest) + r, PrintMembers(b.rest) + q;
    var r1, q1 := ":" + (Print(a.value) + r2), ":" + (Print(b.value) + q2);
    assert Quoted(a.key) + (":" + (Print(a.value) + PrintMembers(a.rest))) + r == Quoted(a.key) + r1;
    assert Quoted(b.key) + (":" + (Print(b.value) + PrintMembers(b.rest))) + q == Quoted(b.key) + q1;
    OneString(a.key, b.key, r1, q1);
    assert r1[1..] == Print(a.value) + r2 && q1[1..] == Print(b.value) + q2;
    TailsStop(NoItems, a.rest, r);
    TailsStop(NoItems, b.rest, q);
    ReadOne(a.value, b.value, r2, q2);
    ReadMembers(a.rest, b.rest, r, q);
  }

  lemma {:induction false} ReadMembers(a: Members, b: Members, r: string, q: string)
    requires PrintMembers(a) + r == PrintMembers(b) + q
    ensures SameMembers(a, b) && r == q
    decreases a, 1
  {
    hide Print, Quoted;
    var t := PrintMembers(a) + r;
    if a.Member? && b.Member? {
      assert t[1..] == Quoted(a.key) + (":" + (Print(a.value) + PrintMembers(a.rest))) + r;
      assert t[1..] == Quoted(b.key) + (":" + (Print(b.value) + PrintMembers(b.rest))) + q;
      ReadMemberPair(a, b, r, q);
    } else {
      assert t[0] == PrintMembers(a)[0] == PrintMembers(b)[0];
      assert r == t[1..] == q;
    }
  }

  lemma {:induction false} SamePrint(j: Json, k: Json)
    requires Same(j, k)
    ensures Print(j) == Print(k)
    decreases j
  {
    hide Quoted, Utf16;
    match (j, k)
    case (Str(a), Str(b)) => QuotedSame(a, b);
    case (Arr(a), Arr(b)) => SamePrintItems(a, b);
    case (Obj(a), Obj(b)) => SamePrintMembers(a, b);
    case _ =>
  }

  lemma {:induction false} SamePrintItems(a: Items, b: Items)
    requires SameItems(a, b)
    ensures PrintFirst(a) == PrintFirst(b) && PrintMore(a) == PrintMore(b)
    decreases a
  {
    if a.Item? {
      SamePrint(a.head, b.head);
      SamePrintItems(a.tail, b.tail);
    }
  }

  lemma {:induction false} SamePrintMembers(a: Members, b: Members)
    requires SameMembers(a, b)
    ensures PrintFirstMember(a) == PrintFirstMember(b) && PrintMembers(a) == PrintMembers(b)
    decreases a
  {
    hide Quoted, Utf16;
    if a.Member? {
      QuotedSame(a.key, b.key);
      SamePrint(a.value, b.value);
      SamePrintMembers(a.rest, b.rest);
    }
  }

  /** Two JSON trees dump to the same text exactly when, sorted, they differ in nothing but surrogate spelling. */
  lemma DumpsTell(j: Json, k: Json)
    ensures Dumps(j) == Dumps(k) <==> Same(Sorted(j), Sorted(k))
  {
    if Dumps(j) == Dumps(k) {
      assert Print(Sorted(j)) + "" == Print(Sorted(k)) + "";
      ReadOne(Sorted(j), Sorted(k), "", "");
    }
    if Same(Sorted(j), Sorted(k)) { SamePrint(Sorted(j), Sorted(k)); }
  }
}
