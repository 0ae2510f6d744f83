/** Banks that keep their turns and banks that do not, told by their templates. */
module NoteBanks {
  import opened Basics
  import opened NoteSplit
  import opened NoteTurns
  import NoteTemplates

  function TextOf(template: string, draws: Draws): string {
    NoteTemplates.NoteOf(draws, NoteTemplates.Pieces(template, 0)).text
  }

  /** The bank of templates as `render_template` renders them. */
  ghost predicate Real(bank: Bank) {
    bank.render == TextOf
  }

  // --- what a template renders to, read off its characters ---

  predicate Plain(s: string) {
    '{' !in s && '}' !in s
  }

  predicate EndsWith(s: string, ending: string) {
    |ending| <= |s| && s[|s| - |ending|..] == ending
  }

  lemma TokensAreBraced(template: string, i: nat)
    requires i < |template|
    ensures var token := NoteTemplates.TokenAt(template, i);
            token.Some? ==>
              var n := |NoteTemplates.TokenText(token.value)|;
              n > 0 && i + n <= |template| && template[i] == '{' && template[i + n - 1] == '}'
  {
    hide NoteTemplates.TokenAt;
    var token := NoteTemplates.TokenAt(template, i);
    if token.Some? {
      var text := NoteTemplates.TokenText(token.value);
      assert text[0] == '{' && text[|text| - 1] == '}';
      assert template[i..i + |text|] == text;
      assert template[i] == text[0] && template[i + |text| - 1] == text[|text| - 1];
    }
  }

  /** Characters without braces are typed as they stand. */
  lemma PlainEnding(draws: Draws, s: NoteTemplates.State, template: string, i: nat)
    requires i <= |template| && Plain(template[i..])
    ensures NoteTemplates.Rendered(draws, s, NoteTemplates.Pieces(template, i)) ==
            NoteTemplates.Typed(s, template[i..])
  {
    hide NoteTemplates.TokenAt, NoteTemplates.Pieces, NoteTemplates.Rendered, NoteTemplates.TokenText;
    forall k: nat | i <= k < |template| ensures NoteTemplates.TokenAt(template, k).None? {
      assert template[i..][k - i] == template[k];
      TokensAreBraced(template, k);
    }
    NoteTemplates.LiteralRun(draws, s, template, i, |template|);
    assert template[i..|template|] == template[i..];
    NoteTemplates.NothingLeft(draws, NoteTemplates.Typed(s, template[i..]), template);
  }

  /** What follows the last slot ends the text, whatever was drawn. */
  lemma {:induction false} RenderedEnds(draws: Draws, s: NoteTemplates.State, template: string, i: nat,
                                        ending: string)
    requires EndsWith(template, ending) && Plain(ending) && i <= |template| - |ending|
    ensures EndsWith(NoteTemplates.Rendered(draws, s, NoteTemplates.Pieces(template, i)).note.text, ending)
    decreases |template| - i
  {
    hide NoteTemplates.TokenAt, NoteTemplates.Pieces, NoteTemplates.Rendered, NoteTemplates.TokenText,
         NoteTemplates.Placed;
    var cut := |template| - |ending|;
    if i == cut {
      PlainEnding(draws, s, template, i);
    } else {
      TokensAreBraced(template, i);
      NoteTemplates.PieceAt(template, i);
      var token := NoteTemplates.TokenAt(template, i);
      if token.Some? {
        var next := i + |NoteTemplates.TokenText(token.value)|;
        forall k: nat | cut <= k < |template| ensures template[k] != '}' {
          assert template[k] == ending[k - cut];
        }
        NoteTemplates.TokenStep(draws, s, template, i, token.value);
        RenderedEnds(draws, NoteTemplates.Placed(draws, s, token.value), template, next, ending);
      } else {
        var piece := NoteTemplates.Char(template[i]);
        NoteTemplates.OnePiece(draws, s, piece, NoteTemplates.Pieces(template, i + 1));
        RenderedEnds(draws, NoteTemplates.Placed(draws, s, piece), template, i + 1, ending);
      }
    }
  }

  /** A template without slots renders to itself. */
  lemma PlainRenders(template: string, draws: Draws)
    requires Plain(template)
    ensures TextOf(template, draws) == template
  {
    hide NoteTemplates.Pieces, NoteTemplates.Rendered;
    assert template[0..] == template;
    PlainEnding(draws, NoteTemplates.BLANK, template, 0);
  }

  const SLOT := "{ORDER}"

  /** A template with one slot renders to its text around the first mention drawn. */
  lemma SlotRenders(head: string, rest: string, draws: Draws)
    requires Plain(head) && Plain(rest)
    ensures TextOf(head + SLOT + rest, draws) == head + draws(0, NoteTemplates.ORDER) + rest
  {
    hide NoteTemplates.Pieces, NoteTemplates.Rendered;
    var template, slot := head + SLOT + rest, NoteTemplates.Slot(NoteTemplates.ORDER, false);
    var n := |head|;
    SlotIsThere(head, rest);
    forall k: nat | k < n ensures NoteTemplates.TokenAt(template, k).None? {
      assert template[k] == head[k];
      TokensAreBraced(template, k);
    }
    var blank := NoteTemplates.BLANK;
    NoteTemplates.LiteralRun(draws, blank, template, 0, n);
    assert template[0..n] == head && blank.note.text + head == head;
    var s := NoteTemplates.Typed(blank, head);
    NoteTemplates.TokenStep(draws, s, template, n, slot);
    assert template[n + |SLOT|..] == rest;
    PlainEnding(draws, NoteTemplates.Placed(draws, s, slot), template, n + |SLOT|);
  }

  lemma SlotIsThere(head: string, rest: string)
    ensures var slot := NoteTemplates.Slot(NoteTemplates.ORDER, false);
            NoteTemplates.TokenText(slot) == SLOT && NoteTemplates.TokenAt(head + SLOT + rest, |head|) == Some(slot)
  {
    var template := head + SLOT + rest;
    assert template[|head|..|head| + |SLOT|] == SLOT;
    assert NoteTemplates.TOKENS[0] == NoteTemplates.Slot(NoteTemplates.ORDER, false);
    assert NoteTemplates.StartsWith(template, |head|, NoteTemplates.TokenText(NoteTemplates.TOKENS[0]));
  }

  // --- templates that end differently ---

  /** Endings of one length, free of slots, that differ. */
  ghost predicate EndApart(t: string, u: string) {
    exists e, f :: Plain(e) && Plain(f) && |e| == |f| && e != f && EndsWith(t, e) && EndsWith(u, f)
  }

  lemma EndingTells(t: string, u: string, a: string, b: string, d: Draws, e: Draws)
    requires Plain(a) && Plain(b) && |a| == |b| && a != b && EndsWith(t, a) && EndsWith(u, b)
    ensures TextOf(t, d) != TextOf(u, e)
  {
    hide NoteTemplates.Pieces, NoteTemplates.Rendered;
    RenderedEnds(d, NoteTemplates.BLANK, t, 0, a);
    RenderedEnds(e, NoteTemplates.BLANK, u, 0, b);
  }

  lemma EndApartTells(t: string, u: string, d: Draws, e: Draws)
    requires EndApart(t, u)
    ensures TextOf(t, d) != TextOf(u, e)
  {
    hide TextOf, Plain, EndsWith;
    var a, b :| Plain(a) && Plain(b) && |a| == |b| && a != b && EndsWith(t, a) && EndsWith(u, b);
    EndingTells(t, u, a, b, d, e);
  }

  /** Whatever the vocabulary, templates that end differently render apart. */
  lemma EndingsTellApart(bank: Bank)
    requires Real(bank)
    requires forall i: nat, j: nat :: i < j < |bank.order| ==> EndApart(bank.order[i], bank.order[j])
    ensures bank.Apart()
  {
    hide EndApart, TextOf;
    forall i: nat, j: nat | i < j < |bank.order| ensures bank.order[i] != bank.order[j] {
      NotApartFromItself(bank.order[i]);
    }
    forall t, u, x | t in bank.order && u in bank.order && bank.CanRender(t, x) && bank.CanRender(u, x)
      ensures t == u
    {
      var i: nat :| i < |bank.order| && bank.order[i] == t;
      var j: nat :| j < |bank.order| && bank.order[j] == u;
      var d: Draws :| DrawsFrom(bank.vocab, d) && bank.render(t, d) == x;
      var e: Draws :| DrawsFrom(bank.vocab, e) && bank.render(u, e) == x;
      if i < j { EndApartTells(t, u, d, e); }
      if j < i { EndApartTells(u, t, e, d); }
    }
  }

  lemma NotApartFromItself(t: string)
    ensures !EndApart(t, t)
  {
  }

  // --- banks that keep their turns, and one that does not ---

  /** The exact condition for notes as `render_template` makes them, of templates that end differently. */
  lemma RenderedTurnsExactly(bank: Bank)
    requires Real(bank)
    requires forall i: nat, j: nat :: i < j < |bank.order| ==> EndApart(bank.order[i], bank.order[j])
    ensures (forall draws: nat -> Draws :: bank.Drawn(draws) ==> UsedBeforeRepeated(bank.order, bank.Notes(draws)))
            <==> bank.TurnsAreSafe()
  {
    hide *;
    EndingsTellApart(bank);
    TurnsExactly(bank);
  }

  /**
    The promise holds, whatever is drawn, when no template may lose its turn, as with a bank whose
    texts are all new and not compared to another split; and when those that may are no more than
    the templates the split does not need.
   */
  lemma FewLosersTakeTurns(bank: Bank, draws: nat -> Draws)
    requires bank.Apart() && bank.Drawn(draws)
    requires bank.Losers() == {} || |bank.Losers()| <= |bank.order| - bank.perLabel
    ensures UsedBeforeRepeated(bank.order, bank.Notes(draws))
  {
    hide Bank.Losers;
    forall i: nat | bank.CanRepeat(i) ensures bank.FewLosers(bank.order[i]) {
      SubsetCount(bank.LosersBut(bank.order[i]), bank.Losers());
    }
    TurnsExactly(bank);
  }

  /**
    A template with a slot beside one without, two notes to make: the promise holds exactly when
    the one text of the latter is fresh. Otherwise the former makes both notes.
   */
  lemma PlainTemplateTakesItsTurn(bank: Bank, head: string, rest: string, e: string, plain: string, f: string,
                                  first: string, second: string, any: Draws)
    requires Real(bank) && bank.order == [head + SLOT + rest, plain] && bank.perLabel == 2
    requires Plain(head) && Plain(rest) && Plain(plain)
    requires EndsWith(rest, e) && EndsWith(plain, f) && Plain(e) && Plain(f) && |e| == |f| && e != f
    requires DrawsFrom(bank.vocab, any) && first != second
    requires bank.vocab(NoteTemplates.ORDER, first) && bank.vocab(NoteTemplates.ORDER, second)
    requires bank.Fresh(head + first + rest) && bank.Fresh(head + second + rest)
    ensures (forall draws: nat -> Draws :: bank.Drawn(draws) ==>
              UsedBeforeRepeated(bank.order, bank.Notes(draws)))
            <==> bank.Fresh(plain)
  {
    hide TextOf, Plain, EndApart, Bank.Notes, UsedBeforeRepeated;
    var slotted := head + SLOT + rest;
    NotApartFromItself(plain);
    EndingOf(head + SLOT, rest, e);
    EndingsDiffer(slotted, e, plain, f);
    EndingsTellApart(bank);
    TurnsExactly(bank);
    MentionRenders(bank, head, rest, first, any);
    MentionRenders(bank, head, rest, second, any);
    MentionsTell(head, rest, first, second);
    OnlyItself(bank, plain, any);
    assert bank.order[0] == slotted && bank.order[1] == plain;
    assert bank.CanRepeat(0);
    if bank.Fresh(plain) {
      assert bank.LosersBut(slotted) == {};
      assert !bank.CanRepeat(1);
      assert bank.TurnsAreSafe();
    } else {
      assert bank.CanLose(plain);
      assert plain in bank.LosersBut(slotted);
      SubsetCount({plain}, bank.LosersBut(slotted));
      assert !bank.FewLosers(bank.order[0]);
    }
  }

  lemma EndingsDiffer(t: string, e: string, u: string, f: string)
    requires EndsWith(t, e) && EndsWith(u, f) && Plain(e) && Plain(f) && |e| == |f| && e != f
    ensures EndApart(t, u)
  {
  }

  lemma EndingOf(front: string, t: string, e: string)
    requires EndsWith(t, e)
    ensures EndsWith(front + t, e)
  {
  }

  lemma MentionsTell(head: string, rest: string, first: string, second: string)
    requires first != second
    ensures head + first + rest != head + second + rest
  {
    var x, y := head + first + rest, head + second + rest;
    assert x[|head|..|x| - |rest|] == first && y[|head|..|y| - |rest|] == second;
  }

  lemma MentionRenders(bank: Bank, head: string, rest: string, mention: string, any: Draws)
    requires Real(bank) && Plain(head) && Plain(rest)
    requires DrawsFrom(bank.vocab, any) && bank.vocab(NoteTemplates.ORDER, mention)
    ensures bank.CanRender(head + SLOT + rest, head + mention + rest)
  {
    hide TextOf, Plain;
    var draws: Draws := (n: nat, kind: Label) => if kind == NoteTemplates.ORDER then mention else any(n, kind);
    SlotRenders(head, rest, draws);
    assert DrawsFrom(bank.vocab, draws);
  }

  lemma OnlyItself(bank: Bank, plain: string, any: Draws)
    requires Real(bank) && Plain(plain) && DrawsFrom(bank.vocab, any)
    ensures forall x :: bank.CanRender(plain, x) <==> x == plain
  {
    hide TextOf, Plain, DrawsFrom;
    PlainRenders(plain, any);
    forall draws: Draws ensures TextOf(plain, draws) == plain { PlainRenders(plain, draws); }
  }

  const TO_A_COURIER := "A courier asked for directions related to "
  const WRONG_SITE := " but had the wrong site entirely."
  const BICYCLE_RACK := "Bicycle rack near the gate was "
  const STORM_DAMAGE := "repaired after last week's storm damage."

  lemma HeadIsPlain()
    ensures Plain(TO_A_COURIER)
  {
  }

  lemma RestIsPlain()
    ensures Plain(WRONG_SITE)
  {
  }

  lemma FrontIsPlain()
    ensures Plain(BICYCLE_RACK)
  {
  }

  lemma BackIsPlain()
    ensures Plain(STORM_DAMAGE)
  {
  }

  lemma TheRackIsPlain()
    ensures Plain(BICYCLE_RACK + STORM_DAMAGE)
  {
    FrontIsPlain();
    BackIsPlain();
    hide BICYCLE_RACK, STORM_DAMAGE;
  }

  lemma TheirEndings()
    ensures EndsWith(WRONG_SITE, "ly.") && EndsWith(BICYCLE_RACK + STORM_DAMAGE, "ge.")
  {
    assert EndsWith(STORM_DAMAGE, "ge.");
    hide EndsWith;
    EndingOf(BICYCLE_RACK, STORM_DAMAGE, "ge.");
  }

  lemma ShortAndPlain()
    ensures Plain("ly.") && Plain("ge.")
  {
  }

  /**
    Two templates of the test bank, the second too close to its neighbour in the training bank: a
    run makes both notes from the first.
   */
  lemma RealTurnIsLost(bank: Bank, any: Draws) returns (draws: nat -> Draws)
    requires Real(bank) && bank.order == [TO_A_COURIER + SLOT + WRONG_SITE, BICYCLE_RACK + STORM_DAMAGE]
    requires bank.perLabel == 2 && DrawsFrom(bank.vocab, any) && bank.close(BICYCLE_RACK + STORM_DAMAGE)
    requires bank.vocab(NoteTemplates.ORDER, "PO-KTN-0001") && bank.vocab(NoteTemplates.ORDER, "PO-KTN-0002")
    requires bank.Fresh(TO_A_COURIER + "PO-KTN-0001" + WRONG_SITE)
    requires bank.Fresh(TO_A_COURIER + "PO-KTN-0002" + WRONG_SITE)
    ensures bank.Drawn(draws) && !UsedBeforeRepeated(bank.order, bank.Notes(draws))
  {
    hide TextOf, DrawsFrom, Plain, EndsWith, Bank.Notes, UsedBeforeRepeated;
    hide TO_A_COURIER, WRONG_SITE, BICYCLE_RACK, STORM_DAMAGE, SLOT;
    HeadIsPlain();
    RestIsPlain();
    TheRackIsPlain();
    TheirEndings();
    ShortAndPlain();
    assert "ly."[0] != "ge."[0];
    assert "PO-KTN-0001"[10] != "PO-KTN-0002"[10];
    PlainTemplateTakesItsTurn(bank, TO_A_COURIER, WRONG_SITE, "ly.", BICYCLE_RACK + STORM_DAMAGE, "ge.",
                              "PO-KTN-0001", "PO-KTN-0002", any);
    draws :| bank.Drawn(draws) && !UsedBeforeRepeated(bank.order, bank.Notes(draws));
  }
}
