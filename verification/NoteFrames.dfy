/** Checking a note's spans, normalising a note to its frame, and what both make of rendered notes. */
module NoteFrames {
  import opened Basics
  import opened NoteTemplates

  // --- the span checks of the validator ---

  predicate SpanOk(text: string, e: Entity) {
    0 <= e.start < e.end <= |text| && text[e.start..e.end] == e.text
  }

  datatype Problem = InvalidSpan(index: nat) | BeyondText(index: nat) | WrongText(index: nat)

  function ProblemOf(text: string, e: Entity, index: nat): Option<Problem> {
    if e.start >= e.end || e.start < 0 then Some(InvalidSpan(index))
    else if e.end > |text| then Some(BeyondText(index))
    else if text[e.start..e.end] != e.text then Some(WrongText(index))
    else None
  }

  /** Which problem a span has: none in it, more than the text holds, or another mention. */
  lemma ProblemsTell(text: string, e: Entity, index: nat)
    ensures match ProblemOf(text, e, index)
            case Some(InvalidSpan(i)) => i == index && !(0 <= e.start < e.end)
            case Some(BeyondText(i)) => i == index && 0 <= e.start < e.end && |text| < e.end
            case Some(WrongText(i)) =>
              i == index && 0 <= e.start < e.end <= |text| && text[e.start..e.end] != e.text
            case None => 0 <= e.start < e.end <= |text| && text[e.start..e.end] == e.text
  {
  }

  /** One problem for every entity whose span does not hold its mention, in order. */
  method CheckSpans(text: string, entities: seq<Entity>) returns (problems: seq<Problem>)
    ensures problems == [] <==>
            forall i: nat :: i < |entities| ==>
              var e := entities[i]; 0 <= e.start < e.end <= |text| && text[e.start..e.end] == e.text
    ensures forall i: nat :: i < |entities| ==>
              var problem := ProblemOf(text, entities[i], i); problem.Some? ==> problem.value in problems
    ensures forall p :: p in problems ==> p.index < |entities| && ProblemOf(text, entities[p.index], p.index) == Some(p)
  {
    problems := [];
    var index := 0;
    while index < |entities|
      invariant index <= |entities|
      invariant forall i: nat :: i < index ==>
                  var problem := ProblemOf(text, entities[i], i); problem.Some? ==> problem.value in problems
      invariant forall p :: p in problems ==> p.index < index && ProblemOf(text, entities[p.index], p.index) == Some(p)
    {
      var problem := ProblemOf(text, entities[index], index);
      if problem.Some? { problems := problems + [problem.value]; }
      index := index + 1;
    }
    if problems != [] {
      var p := problems[0];
      assert p in problems && !SpanOk(text, entities[p.index]);
    } else {
      forall i: nat | i < |entities| ensures SpanOk(text, entities[i]) {
        assert ProblemOf(text, entities[i], i).None?;
      }
    }
  }

  // --- normalising ---

  /** Python's `text[a:b]` for a bound `a` that is not negative. */
  function Slice(text: string, a: nat, b: nat): string
    requires b <= |text|
  {
    if a <= b then text[a..b] else ""
  }

  predicate InText(text: string, e: Entity) {
    0 <= e.start <= e.end <= |text|
  }

  function LowerName(kind: Label): string {
    match kind
    case ORDER => "order"
    case LINE => "line"
    case STYLE => "style"
    case MATERIAL => "material"
    case OPERATION => "operation"
    case DEFECT => "defect"
  }

  function Placeholder(kind: Label): string {
    "<" + LowerName(kind) + ">"
  }

  lemma PlaceholdersAreSpelled()
    ensures Placeholder(ORDER) == "<order>" && Placeholder(LINE) == "<line>" && Placeholder(STYLE) == "<style>"
    ensures Placeholder(MATERIAL) == "<material>" && Placeholder(OPERATION) == "<operation>"
    ensures Placeholder(DEFECT) == "<defect>"
  {
  }

  function InsertByStart(e: Entity, sorted: seq<Entity>): seq<Entity> {
    if sorted == [] then [e]
    else if e.start <= sorted[0].start then [e] + sorted
    else [sorted[0]] + InsertByStart(e, sorted[1..])
  }

  function SortByStart(entities: seq<Entity>): seq<Entity> {
    if entities == [] then [] else InsertByStart(entities[0], SortByStart(entities[1..]))
  }

  /** Where the text goes on after the last span replaced. */
  function Cursor(text: string, entities: seq<Entity>): nat
    ensures Cursor(text, entities) <= |text|
  {
    if entities == [] then 0
    else
      var last := entities[|entities| - 1];
      if InText(text, last) then last.end else Cursor(text, entities[..|entities| - 1])
  }

  /** The text up to there, spans replaced by placeholders; spans outside the text are skipped. */
  function Head(text: string, entities: seq<Entity>): string {
    if entities == [] then ""
    else
      var last, before := entities[|entities| - 1], entities[..|entities| - 1];
      if InText(text, last)
          then Head(text, before) + Slice(text, Cursor(text, before), last.start) + Placeholder(last.kind)
      else Head(text, before)
  }

  function Replaced(text: string, entities: seq<Entity>): string {
    Head(text, entities) + Slice(text, Cursor(text, entities), |text|)
  }

  /** `fold` lower-cases, collapses white space and strips. */
  function Frame(note: Note, fold: string -> string): string {
    fold(Replaced(note.text, SortByStart(note.entities)))
  }

  method NormalizeFrame(note: Note, fold: string -> string) returns (frame: string)
    ensures frame == Frame(note, fold)
  {
    hide Join, SortByStart;
    var text, entities := note.text, SortByStart(note.entities);
    var parts: seq<string>, cursor: nat, i := [], 0, 0;
    NoParts();
    while i < |entities|
      invariant i <= |entities| && cursor <= |text|
      invariant Join(parts) == Head(text, entities[..i]) && cursor == Cursor(text, entities[..i])
    {
      var e := entities[i];
      assert entities[..i + 1][..i] == entities[..i];
      if 0 <= e.start <= e.end <= |text| {
        JoinOneMore(parts, Slice(text, cursor, e.start));
        JoinOneMore(parts + [Slice(text, cursor, e.start)], Placeholder(e.kind));
        parts := parts + [Slice(text, cursor, e.start)] + [Placeholder(e.kind)];
        cursor := e.end;
      }
      i := i + 1;
    }
    assert entities[..i] == entities;
    JoinOneMore(parts, text[cursor..]);
    parts := parts + [text[cursor..]];
    assert Join(parts) == Replaced(text, entities);
    frame := fold(Join(parts));
  }

  // --- rendered notes ---

  /** Spans hold their mentions, in order and disjoint, within the text. */
  ghost predicate WellSpanned(note: Note) {
    && (forall i: nat :: i < |note.entities| ==>
          var e := note.entities[i]; InText(note.text, e) && note.text[e.start..e.end] == e.text)
    && (forall i: nat, j: nat :: i < j < |note.entities| ==> note.entities[i].end <= note.entities[j].start)
  }

  lemma TypedKeepsSpans(s: State, text: string)
    requires WellSpanned(s.note)
    ensures WellSpanned(Typed(s, text).note)
  {
    forall i: nat | i < |s.note.entities|
      ensures var e := s.note.entities[i]; (s.note.text + text)[e.start..e.end] == e.text
    {
      var e := s.note.entities[i];
      assert (s.note.text + text)[e.start..e.end] == s.note.text[e.start..e.end];
    }
  }

  lemma MentionKeepsSpans(s: State, kind: Label, mention: string)
    requires WellSpanned(s.note)
    ensures WellSpanned(Mentioned(s, kind, mention).note)
  {
    TypedKeepsSpans(s, mention);
    var t := Mentioned(s, kind, mention).note;
    var n := |s.note.entities|;
    assert t.text[|s.note.text|..|s.note.text| + |mention|] == mention;
    forall i: nat, j: nat | i < j < |t.entities| ensures t.entities[i].end <= t.entities[j].start {
      if j == n { assert InText(s.note.text, s.note.entities[i]); }
    }
    forall i: nat | i < |t.entities|
      ensures var e := t.entities[i]; InText(t.text, e) && t.text[e.start..e.end] == e.text
    {
      if i < n { assert t.entities[i] == Typed(s, mention).note.entities[i]; }
    }
  }

  /** The frame text of a template: placeholders for its slots, everything else as rendered. */
  function FrameText(pieces: seq<Piece>): string {
    if pieces == [] then ""
    else
      var rest := FrameText(pieces[1..]);
      match pieces[0]
      case Char(c) => [c] + rest
      case Fake => FAKE_ORDER_REF + rest
      case Slot(kind, _) => Placeholder(kind) + rest
  }

  lemma {:induction false} HeadOfLonger(text: string, more: string, entities: seq<Entity>)
    requires forall i: nat :: i < |entities| ==> InText(text, entities[i])
    ensures Head(text + more, entities) == Head(text, entities)
    ensures Cursor(text + more, entities) == Cursor(text, entities)
    decreases |entities|
  {
    if entities != [] {
      var n := |entities| - 1;
      HeadOfLonger(text, more, entities[..n]);
      var last, cursor := entities[n], Cursor(text, entities[..n]);
      assert InText(text, last) && InText(text + more, last);
      if cursor <= last.start { assert (text + more)[cursor..last.start] == text[cursor..last.start]; }
    }
  }

  lemma SpansAreInText(note: Note)
    requires WellSpanned(note)
    ensures forall i: nat :: i < |note.entities| ==> InText(note.text, note.entities[i])
  {
  }

  lemma TypedReplaced(s: State, more: string)
    requires WellSpanned(s.note)
    ensures Replaced(Typed(s, more).note.text, s.note.entities) == Replaced(s.note.text, s.note.entities) + more
  {
    hide Head, WellSpanned;
    var text, entities := s.note.text, s.note.entities;
    SpansAreInText(s.note);
    HeadOfLonger(text, more, entities);
    SliceOfLonger(text, more, Cursor(text, entities));
    assert Head(text, entities) + (Slice(text, Cursor(text, entities), |text|) + more) ==
           (Head(text, entities) + Slice(text, Cursor(text, entities), |text|)) + more;
  }

  lemma SliceOfLonger(text: string, more: string, cursor: nat)
    requires cursor <= |text|
    ensures Slice(text + more, cursor, |text + more|) == Slice(text, cursor, |text|) + more
    ensures Slice(text + more, cursor, |text|) == Slice(text, cursor, |text|)
    ensures Slice(text + more, |text + more|, |text + more|) == ""
  {
    assert (text + more)[cursor..] == text[cursor..] + more;
  }

  /** The last span replaced. */
  lemma LastReplaced(text: string, entities: seq<Entity>, e: Entity)
    requires InText(text, e)
    ensures Head(text, entities + [e]) ==
        Head(text, entities) + Slice(text, Cursor(text, entities), e.start) + Placeholder(e.kind)
    ensures Cursor(text, entities + [e]) == e.end
  {
    hide Placeholder, Slice;
    assert (entities + [e])[..|entities|] == entities;
  }

  lemma MentionReplaced(s: State, kind: Label, mention: string)
    requires WellSpanned(s.note)
    ensures var t := Mentioned(s, kind, mention).note;
            Replaced(t.text, t.entities) == Replaced(s.note.text, s.note.entities) + Placeholder(kind)
  {
    hide Head, Cursor, WellSpanned, Placeholder, Slice;
    var t, text, entities := Mentioned(s, kind, mention).note, s.note.text, s.note.entities;
    SpansAreInText(s.note);
    HeadOfLonger(text, mention, entities);
    LastReplaced(t.text, entities, t.entities[|entities|]);
    SliceOfLonger(text, mention, Cursor(text, entities));
  }

  lemma PlacedFacts(draws: Draws, s: State, piece: Piece)
    requires WellSpanned(s.note)
    ensures var t := Placed(draws, s, piece).note;
            && WellSpanned(t)
            && Replaced(t.text, t.entities) == Replaced(s.note.text, s.note.entities) + FrameText([piece])
            && |t.entities| == |s.note.entities| + (if piece.Slot? then 1 else 0)
            && (piece.Slot? ==> t.entities[|s.note.entities|].kind == piece.kind)
            && s.note.entities <= t.entities
  {
    hide WellSpanned, Replaced, Redrawn, Placeholder;
    var t := Placed(draws, s, piece).note;
    match piece
    case Char(c) => TypedKeepsSpans(s, [c]); TypedReplaced(s, [c]);
    case Fake => TypedKeepsSpans(s, FAKE_ORDER_REF); TypedReplaced(s, FAKE_ORDER_REF);
    case Slot(kind, second) =>
      var mention := t.entities[|s.note.entities|].text;
      MentionKeepsSpans(s, kind, mention);
      MentionReplaced(s, kind, mention);
  }

  /** The labels of a template's slots, in order. */
  function SlotKinds(pieces: seq<Piece>): seq<Label> {
    if pieces == [] then []
    else if pieces[0].Slot? then [pieces[0].kind] + SlotKinds(pieces[1..])
    else SlotKinds(pieces[1..])
  }

  function Kinds(entities: seq<Entity>): seq<Label> {
    seq(|entities|, i requires 0 <= i < |entities| => entities[i].kind)
  }

  lemma {:induction false} RenderedFacts(draws: Draws, s: State, pieces: seq<Piece>)
    requires WellSpanned(s.note)
    ensures var t := Rendered(draws, s, pieces).note;
            && WellSpanned(t)
            && Replaced(t.text, t.entities) == Replaced(s.note.text, s.note.entities) + FrameText(pieces)
            && Kinds(t.entities) == Kinds(s.note.entities) + SlotKinds(pieces)
    decreases |pieces|
  {
    hide WellSpanned, Replaced, Placed, Placeholder;
    if pieces != [] {
      var next := Placed(draws, s, pieces[0]);
      PlacedFacts(draws, s, pieces[0]);
      RenderedFacts(draws, next, pieces[1..]);
      assert FrameText(pieces) == FrameText([pieces[0]]) + FrameText(pieces[1..]) by { FrameOfOne(pieces); }
      assert Kinds(next.note.entities) ==
             Kinds(s.note.entities) + (if pieces[0].Slot? then [pieces[0].kind] else []);
    }
  }

  lemma FrameOfOne(pieces: seq<Piece>)
    requires pieces != []
    ensures FrameText(pieces) == FrameText([pieces[0]]) + FrameText(pieces[1..])
  {
    hide Placeholder;
    var one, rest := [pieces[0]], FrameText(pieces[1..]);
    assert one[1..] == [] && FrameText([]) == "";
    match pieces[0]
    case Char(c) => assert FrameText(one) == [c] + "" == [c];
    case Fake => assert FrameText(one) == FAKE_ORDER_REF + "" == FAKE_ORDER_REF;
    case Slot(kind, _) => assert FrameText(one) == Placeholder(kind) + "" == Placeholder(kind);
  }

  lemma {:induction false} AscendingIsSorted(entities: seq<Entity>)
    requires forall i: nat, j: nat :: i < j < |entities| ==> entities[i].start <= entities[j].start
    ensures SortByStart(entities) == entities
  {
    if entities != [] {
      AscendingIsSorted(entities[1..]);
      assert entities == [entities[0]] + entities[1..];
    }
  }

  lemma BlankFacts()
    ensures WellSpanned(BLANK.note) && Replaced("", []) == "" && Kinds([]) == []
  {
  }

  /**
    Whatever is drawn: the spans of a rendered note are ordered and disjoint, hold exactly their
    mentions, and are those of the template's slots in order, the fake reference never among them.
   */
  lemma RenderedSpans(draws: Draws, pieces: seq<Piece>)
    ensures WellSpanned(NoteOf(draws, pieces))
    ensures Kinds(NoteOf(draws, pieces).entities) == SlotKinds(pieces)
  {
    hide Rendered, WellSpanned, Replaced, FrameText, SlotKinds, Kinds;
    BlankFacts();
    RenderedFacts(draws, BLANK, pieces);
    assert [] + SlotKinds(pieces) == SlotKinds(pieces);
  }

  /** Non-empty mentions make every rendered note pass the validator's span checks. */
  lemma RenderedPassesSpanChecks(draws: Draws, pieces: seq<Piece>, i: nat)
    requires i < |NoteOf(draws, pieces).entities| && |NoteOf(draws, pieces).entities[i].text| > 0
    ensures SpanOk(NoteOf(draws, pieces).text, NoteOf(draws, pieces).entities[i])
  {
    hide NoteOf;
    RenderedSpans(draws, pieces);
    var note := NoteOf(draws, pieces);
    var e := note.entities[i];
    assert InText(note.text, e) && note.text[e.start..e.end] == e.text;
    assert |note.text[e.start..e.end]| == e.end - e.start;
  }

  /** The frame of a rendered note is that of its template: two renderings never differ in it. */
  lemma FrameDependsOnTemplateOnly(draws: Draws, pieces: seq<Piece>, fold: string -> string)
    ensures Frame(NoteOf(draws, pieces), fold) == fold(FrameText(pieces))
  {
    hide Rendered, FrameText, Replaced;
    var note := NoteOf(draws, pieces);
    BlankFacts();
    RenderedFacts(draws, BLANK, pieces);
    forall i: nat, j: nat | i < j < |note.entities| ensures note.entities[i].start <= note.entities[j].start {
      assert InText(note.text, note.entities[i]);
    }
    AscendingIsSorted(note.entities);
    assert "" + FrameText(pieces) == FrameText(pieces);
  }

  predicate Repeats(draws: Draws, kind: Label, avoid: Option<string>, n: nat) {
    Some(draws(n, kind)) == avoid
  }

  /** A second mention repeats the first exactly when the generator drew that mention eleven times in a row. */
  lemma {:induction false} SecondMentionDiffers(draws: Draws, kind: Label, avoid: Option<string>, drawn: nat,
                                                mention: string, left: nat)
    ensures Some(Redrawn(draws, kind, avoid, drawn, mention, left).0) == avoid <==>
            Some(mention) == avoid && forall n: nat :: drawn <= n < drawn + left ==> Repeats(draws, kind, avoid, n)
    decreases left
  {
    if left > 0 && Some(mention) == avoid {
      SecondMentionDiffers(draws, kind, avoid, drawn + 1, draws(drawn, kind), left - 1);
      assert Repeats(draws, kind, avoid, drawn) <==> Some(draws(drawn, kind)) == avoid;
    }
  }
}
