/**
  Which Python strings the escaped text tells apart. A lone high surrogate followed by a lone
  low one is written exactly like the astral character they would form.
 */
module Surrogates {
  import opened JsonText

  /** No high surrogate code point stands right before a low one. */
  predicate PairFree(s: PyStr) {
    |s| < 2 || (!(High(s[0]) && Low(s[1])) && PairFree(s[1..]))
  }

  function Combine(h: CodePoint, l: CodePoint): CodePoint
    requires High(h) && Low(l)
  {
    0x10000 + (h - 0xD800) * 0x400 + (l - 0xDC00)
  }

  /** `s` with every such pair replaced by the character it spells. */
  function Repaired(s: PyStr): PyStr {
    if |s| >= 2 && High(s[0]) && Low(s[1]) then [Combine(s[0], s[1])] + Repaired(s[2..])
    else if s == [] then []
    else [s[0]] + Repaired(s[1..])
  }

  lemma CombinedUnits(h: CodePoint, l: CodePoint)
    requires High(h) && Low(l)
    ensures Units(Combine(h, l)) == [h, l]
  {
    var c := Combine(h, l);
    assert c - 0x10000 == (h - 0xD800) * 0x400 + (l - 0xDC00);
    assert (c - 0x10000) / 0x400 == h - 0xD800 && (c - 0x10000) % 0x400 == l - 0xDC00;
  }

  lemma AstralUnits(c: CodePoint)
    requires c > 0xFFFF
    ensures High(HighOf(c)) && Low(LowOf(c)) && c == Combine(HighOf(c), LowOf(c))
  {
  }

  lemma {:induction false} RepairKeepsUnits(s: PyStr)
    ensures Utf16(Repaired(s)) == Utf16(s)
    decreases |s|
  {
    hide Combine, HighOf, LowOf;
    if |s| >= 2 && High(s[0]) && Low(s[1]) {
      CombinedUnits(s[0], s[1]);
      RepairKeepsUnits(s[2..]);
      assert Repaired(s)[1..] == Repaired(s[2..]);
      assert s[1..][1..] == s[2..];
    } else if s != [] {
      RepairKeepsUnits(s[1..]);
      assert Repaired(s)[1..] == Repaired(s[1..]);
    }
  }

  lemma {:induction false} RepairedIsPairFree(s: PyStr)
    ensures PairFree(Repaired(s))
    ensures s != [] ==> Repaired(s) != [] && (Repaired(s)[0] == s[0] || Repaired(s)[0] > 0xFFFF)
    decreases |s|
  {
    if |s| >= 2 && High(s[0]) && Low(s[1]) {
      RepairedIsPairFree(s[2..]);
      assert Repaired(s)[1..] == Repaired(s[2..]);
    } else if s != [] {
      RepairedIsPairFree(s[1..]);
      assert Repaired(s)[1..] == Repaired(s[1..]);
    }
  }

  lemma {:induction false} PairFreeNeedsNoRepair(s: PyStr)
    requires PairFree(s)
    ensures Repaired(s) == s
  {
    if s != [] { PairFreeNeedsNoRepair(s[1..]); }
  }

  lemma EmptyUnits(s: PyStr)
    ensures Utf16(s) == [] <==> s == []
  {
  }

  /** Among pair-free strings the UTF-16 form tells the string. */
  lemma {:induction false} UnitsTell(s: PyStr, t: PyStr)
    requires PairFree(s) && PairFree(t) && Utf16(s) == Utf16(t)
    ensures s == t
    decreases |s|
  {
    EmptyUnits(s);
    EmptyUnits(t);
    if s != [] {
      SameFirst(s, t);
      assert Utf16(s[1..]) == Utf16(s)[|Units(s[0])|..];
      assert Utf16(t[1..]) == Utf16(t)[|Units(t[0])|..];
      UnitsTell(s[1..], t[1..]);
    }
  }

  lemma SameFirst(s: PyStr, t: PyStr)
    requires s != [] && t != [] && PairFree(s) && PairFree(t) && Utf16(s) == Utf16(t)
    ensures s[0] == t[0]
  {
    hide Combine, HighOf, LowOf;
    FirstUnits(s);
    FirstUnits(t);
  }

  /** The first two units of a pair-free string form a pair exactly when its first character is astral. */
  lemma FirstUnits(s: PyStr)
    requires s != [] && PairFree(s)
    ensures var u := Utf16(s);
            u != [] &&
            (s[0] > 0xFFFF ==> |u| >= 2 && High(u[0]) && Low(u[1]) && s[0] == Combine(u[0], u[1])) &&
            (s[0] <= 0xFFFF ==> u[0] == s[0] && (|u| >= 2 ==> !(High(u[0]) && Low(u[1]))))
  {
    if s[0] > 0xFFFF {
      AstralUnits(s[0]);
    } else if |s| >= 2 {
      assert Utf16(s)[1] == Utf16(s[1..])[0];
      if s[1] > 0xFFFF { AstralUnits(s[1]); }
    }
  }

  /** Two strings are written alike exactly when they are the same once repaired. */
  lemma {:induction false} AlikeWhenRepairedAlike(s: PyStr, t: PyStr)
    ensures Quoted(s) == Quoted(t) <==> Repaired(s) == Repaired(t)
  {
    QuotedSame(s, t);
    RepairKeepsUnits(s);
    RepairKeepsUnits(t);
    RepairedIsPairFree(s);
    RepairedIsPairFree(t);
    if Utf16(s) == Utf16(t) { UnitsTell(Repaired(s), Repaired(t)); }
  }

  /** A string is told apart from every proper (pair-free) string exactly when it is one itself. */
  lemma TextTellsProperStrings(s: PyStr)
    ensures PairFree(s) <==> forall t: PyStr | PairFree(t) :: Quoted(t) == Quoted(s) ==> t == s
  {
    RepairedIsPairFree(s);
    AlikeWhenRepairedAlike(Repaired(s), s);
    PairFreeNeedsNoRepair(Repaired(s));
    if PairFree(s) {
      PairFreeNeedsNoRepair(s);
      forall t: PyStr | PairFree(t) && Quoted(t) == Quoted(s) ensures t == s {
        AlikeWhenRepairedAlike(t, s);
        PairFreeNeedsNoRepair(t);
      }
    }
  }

  /** U+1F600 and its two lone surrogates are different strings with one text. */
  lemma AstralCollision(smile: PyStr, pair: PyStr)
    requires smile == [0x1F600] && pair == [0xD83D, 0xDE00]
    ensures smile != pair && Quoted(smile) == Quoted(pair)
  {
    assert Repaired(pair) == [0x1F600] + Repaired(pair[2..]);
    assert Repaired(smile) == smile;
    AlikeWhenRepairedAlike(smile, pair);
  }
}
