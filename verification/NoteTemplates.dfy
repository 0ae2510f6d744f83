/**
  The synthetic notes: rendering a template into text and labelled spans, and normalising a note
  back to the frame of its template.
 */
module NoteTemplates {
  import opened Basics

  const FAKE_ORDER_REF := "PO-KTN-9999"
  const MAX_REDRAWS: nat := 10

  datatype Label = ORDER | LINE | STYLE | MATERIAL | OPERATION | DEFECT

  /** A character of the template, a `{FAKE_ORDER}`, or a `{LABEL}` or `{LABEL2}`. */
  datatype Piece = Char(c: char) | Fake | Slot(kind: Label, second: bool)

  datatype Entity = Entity(kind: Label, text: string, start: int, end: int)

  function LabelName(kind: Label): string {
    match kind
    case ORDER => "ORDER"
    case LINE => "LINE"
    case STYLE => "STYLE"
    case MATERIAL => "MATERIAL"
    case OPERATION => "OPERATION"
    case DEFECT => "DEFECT"
  }

  // --- reading a template ---

  predicate StartsWith(template: string, i: nat, prefix: string) {
    i + |prefix| <= |template| && template[i..i + |prefix|] == prefix
  }

  function TokenText(piece: Piece): string
    requires !piece.Char?
  {
    if piece.Fake? then "{FAKE_ORDER}" else "{" + LabelName(piece.kind) + (if piece.second then "2}" else "}")
  }

  const TOKENS: seq<Piece> :=
    [Slot(ORDER, false), Slot(ORDER, true), Slot(LINE, false), Slot(LINE, true), Slot(STYLE, false), Slot(STYLE, true),
     Slot(MATERIAL, false), Slot(MATERIAL, true), Slot(OPERATION, false), Slot(OPERATION, true),
     Slot(DEFECT, false), Slot(DEFECT, true), Fake]

  /** The first of the tokens from the k-th on that matches at `i`. */
  function TokenAmong(template: string, i: nat, k: nat): (token: Option<Piece>)
    requires forall t :: t in TOKENS ==> !t.Char?
    ensures token.Some? ==> !token.value.Char? && StartsWith(template, i, TokenText(token.value))
    decreases |TOKENS| - k
  {
    if k >= |TOKENS| then None
    else if StartsWith(template, i, TokenText(TOKENS[k])) then Some(TOKENS[k])
    else TokenAmong(template, i, k + 1)
  }

  function TokenAt(template: string, i: nat): (token: Option<Piece>)
    ensures token.Some? ==> !token.value.Char? && StartsWith(template, i, TokenText(token.value))
  {
    TokenAmong(template, i, 0)
  }

  /** The thirteen tokens, as a template spells them. */
  lemma TokensAreSpelled()
    ensures TokenText(Fake) == "{FAKE_ORDER}"
    ensures TokenText(Slot(ORDER, false)) == "{ORDER}" && TokenText(Slot(LINE, false)) == "{LINE}"
    ensures TokenText(Slot(STYLE, false)) == "{STYLE}" && TokenText(Slot(MATERIAL, false)) == "{MATERIAL}"
    ensures TokenText(Slot(OPERATION, false)) == "{OPERATION}" && TokenText(Slot(DEFECT, false)) == "{DEFECT}"
  {
  }

  lemma SecondTokensAreSpelled()
    ensures TokenText(Slot(ORDER, true)) == "{ORDER2}" && TokenText(Slot(LINE, true)) == "{LINE2}"
    ensures TokenText(Slot(STYLE, true)) == "{STYLE2}" && TokenText(Slot(MATERIAL, true)) == "{MATERIAL2}"
    ensures TokenText(Slot(OPERATION, true)) == "{OPERATION2}" && TokenText(Slot(DEFECT, true)) == "{DEFECT2}"
  {
  }

  lemma AllAreTokens(piece: Piece)
    ensures !piece.Char? ==> piece in TOKENS
  {
    match piece
    case Char(_) =>
    case Fake => assert piece == TOKENS[12];
    case Slot(ORDER, second) => assert piece == TOKENS[if second then 1 else 0];
    case Slot(LINE, second) => assert piece == TOKENS[if second then 3 else 2];
    case Slot(STYLE, second) => assert piece == TOKENS[if second then 5 else 4];
    case Slot(MATERIAL, second) => assert piece == TOKENS[if second then 7 else 6];
    case Slot(OPERATION, second) => assert piece == TOKENS[if second then 9 else 8];
    case Slot(DEFECT, second) => assert piece == TOKENS[if second then 11 else 10];
  }

  lemma {:induction false} TokenAmongIsComplete(template: string, i: nat, k: nat, j: nat)
    requires k <= j < |TOKENS| && StartsWith(template, i, TokenText(TOKENS[j]))
    ensures TokenAmong(template, i, k).Some?
    decreases |TOKENS| - k
  {
    hide TokenText;
    if k < j { TokenAmongIsComplete(template, i, k + 1, j); }
  }

  /** A token ends at its first closing brace, so no two start at one place. */
  lemma OneTokenAt(template: string, i: nat, a: Piece, b: Piece)
    requires !a.Char? && !b.Char?
    requires StartsWith(template, i, TokenText(a)) && StartsWith(template, i, TokenText(b))
    ensures a == b
  {
    var s, t := TokenText(a), TokenText(b);
    TokenForm(a);
    TokenForm(b);
    hide TokenText;
    var rest := template[i..];
    assert s == rest[..|s|] && t == rest[..|t|];
    if |s| <= |t| { OneEnd(s, t); } else { OneEnd(t, s); }
    TokensTell(a, b);
  }

  lemma OneEnd(s: string, t: string)
    requires 0 < |s| <= |t| && s == t[..|s|] && s[|s| - 1] == '}'
    requires forall k: nat :: k < |t| - 1 ==> t[k] != '}'
    ensures s == t
  {
    assert t[|s| - 1] == s[|s| - 1];
  }

  lemma TokenForm(piece: Piece)
    requires !piece.Char?
    ensures var s := TokenText(piece);
            |s| > 0 && s[|s| - 1] == '}' && forall k: nat :: k < |s| - 1 ==> s[k] != '}'
  {
    if piece.Slot? { NameIsPlain(piece.kind); }
    hide LabelName;
  }

  lemma NameIsPlain(kind: Label)
    ensures forall k: nat :: k < |LabelName(kind)| ==> LabelName(kind)[k] != '}'
  {
  }

  lemma TokensTell(a: Piece, b: Piece)
    requires !a.Char? && !b.Char? && TokenText(a) == TokenText(b)
    ensures a == b
  {
    var s := TokenText(a);
    assert s[1] == TokenText(b)[1] && s[|s| - 2] == TokenText(b)[|s| - 2];
  }

  /** At each place the token read is the one that stands there, if any does. */
  lemma TokenAtExactly(template: string, i: nat, piece: Piece)
    requires !piece.Char?
    ensures TokenAt(template, i) == Some(piece) <==> StartsWith(template, i, TokenText(piece))
  {
    hide TokenText;
    if StartsWith(template, i, TokenText(piece)) {
      AllAreTokens(piece);
      var j: nat :| j < |TOKENS| && TOKENS[j] == piece;
      TokenAmongIsComplete(template, i, 0, j);
      OneTokenAt(template, i, piece, TokenAt(template, i).value);
    }
  }

  /** The template from `i` on, tokens matched left to right. */
  function Pieces(template: string, i: nat): seq<Piece>
    decreases |template| - i
  {
    if i >= |template| then []
    else
      var token := TokenAt(template, i);
      if token.Some? then [token.value] + Pieces(template, i + |TokenText(token.value)|)
      else [Char(template[i])] + Pieces(template, i + 1)
  }

  // --- rendering ---

  /** The n-th draw of a mention; the random generator is any such function. */
  type Draws = (nat, Label) -> string

  datatype Note = Note(text: string, entities: seq<Entity>)

  /** The note so far, the number of draws made and the last first mention of each kind. */
  datatype State = State(note: Note, drawn: nat, primary: map<Label, string>)

  const BLANK := State(Note("", []), 0, map[])

  function Primary(s: State, kind: Label): Option<string> {
    if kind in s.primary then Some(s.primary[kind]) else None
  }

  /** Draw again, up to `left` times, while the mention repeats the first one. */
  function Redrawn(draws: Draws, kind: Label, avoid: Option<string>, drawn: nat, mention: string,
                   left: nat): (string, nat)
    decreases left
  {
    if left == 0 || Some(mention) != avoid then (mention, drawn)
    else Redrawn(draws, kind, avoid, drawn + 1, draws(drawn, kind), left - 1)
  }

  function Typed(s: State, text: string): State {
    s.(note := s.note.(text := s.note.text + text))
  }

  function Mentioned(s: State, kind: Label, mention: string): State {
    var at := |s.note.text|;
    s.(note := Note(s.note.text + mention, s.note.entities + [Entity(kind, mention, at, at + |mention|)]))
  }

  function Placed(draws: Draws, s: State, piece: Piece): State {
    match piece
    case Char(c) => Typed(s, [c])
    case Fake => Typed(s, FAKE_ORDER_REF)
    case Slot(kind, second) =>
      var first := draws(s.drawn, kind);
      if second then
        var (mention, drawn) := Redrawn(draws, kind, Primary(s, kind), s.drawn + 1, first, MAX_REDRAWS);
        Mentioned(s, kind, mention).(drawn := drawn)
      else
        Mentioned(s, kind, first).(drawn := s.drawn + 1, primary := s.primary[kind := first])
  }

  function Rendered(draws: Draws, s: State, pieces: seq<Piece>): State
    decreases |pieces|
  {
    if pieces == [] then s else Rendered(draws, Placed(draws, s, pieces[0]), pieces[1..])
  }

  /**
    A mention is drawn, and drawn again, ten times at most, while it is a second one that repeats the
    last first one of its kind; a first one is remembered.
   */
  lemma MentionIsDrawn(draws: Draws, s: State, kind: Label, second: bool) returns (n: nat)
    ensures var t := Placed(draws, s, Slot(kind, second));
            && s.drawn <= n <= s.drawn + 10 && t.drawn == n + 1
            && t.note == Note(s.note.text + draws(n, kind),
                              s.note.entities + [Entity(kind, draws(n, kind), |s.note.text|,
                                                        |s.note.text| + |draws(n, kind)|)])
            && t.primary == (if second then s.primary else s.primary[kind := draws(n, kind)])
            && (!second ==> n == s.drawn)
            && (forall m: nat :: s.drawn <= m < n ==> kind in s.primary && draws(m, kind) == s.primary[kind])
            && (second && kind in s.primary && draws(n, kind) == s.primary[kind] ==> n == s.drawn + 10)
  {
    if second {
      n := LastDrawn(draws, kind, Primary(s, kind), s.drawn + 1, MAX_REDRAWS);
    } else {
      n := s.drawn;
    }
  }

  lemma {:induction false} LastDrawn(draws: Draws, kind: Label, avoid: Option<string>, drawn: nat, left: nat)
    returns (n: nat)
    requires drawn > 0
    ensures drawn - 1 <= n <= drawn - 1 + left
    ensures Redrawn(draws, kind, avoid, drawn, draws(drawn - 1, kind), left) == (draws(n, kind), n + 1)
    ensures forall m: nat :: drawn - 1 <= m < n ==> Some(draws(m, kind)) == avoid
    ensures Some(draws(n, kind)) == avoid ==> n == drawn - 1 + left
    decreases left
  {
    if left == 0 || Some(draws(drawn - 1, kind)) != avoid {
      n := drawn - 1;
    } else {
      n := LastDrawn(draws, kind, avoid, drawn + 1, left - 1);
    }
  }

  /** The note a template's pieces render to. */
  function NoteOf(draws: Draws, pieces: seq<Piece>): Note {
    Rendered(draws, BLANK, pieces).note
  }

  // --- the loop over the matches ---

  function Join(parts: seq<string>): string {
    if parts == [] then "" else Join(parts[..|parts| - 1]) + parts[|parts| - 1]
  }

  lemma JoinOneMore(parts: seq<string>, part: string)
    ensures Join(parts + [part]) == Join(parts) + part
  {
    assert (parts + [part])[..|parts|] == parts;
  }

  lemma NothingLeft(draws: Draws, s: State, template: string)
    ensures Rendered(draws, s, Pieces(template, |template|)) == s
  {
  }

  lemma NoParts()
    ensures Join([]) == ""
  {
  }

  method NextMatch(template: string, from: nat) returns (start: nat, token: Option<Piece>)
    requires from <= |template|
    ensures from <= start <= |template| && token == (if start < |template| then TokenAt(template, start) else None)
    ensures token.None? ==> start == |template|
    ensures forall i: nat :: from <= i < start ==> TokenAt(template, i).None?
  {
    hide TokenAt;
    start := from;
    while start < |template|
      invariant from <= start <= |template|
      invariant forall i: nat :: from <= i < start ==> TokenAt(template, i).None?
    {
      token := TokenAt(template, start);
      if token.Some? { return; }
      start := start + 1;
    }
    token := None;
  }

  lemma OnePiece(draws: Draws, s: State, piece: Piece, rest: seq<Piece>)
    ensures Rendered(draws, s, [piece] + rest) == Rendered(draws, Placed(draws, s, piece), rest)
  {
    hide Placed;
    assert ([piece] + rest)[1..] == rest;
  }

  lemma PieceAt(template: string, i: nat)
    requires i < |template|
    ensures var token := TokenAt(template, i);
            Pieces(template, i) == if token.Some? then [token.value] + Pieces(template, i + |TokenText(token.value)|)
                                   else [Char(template[i])] + Pieces(template, i + 1)
  {
    hide TokenAt, TokenText;
  }

  /** Characters up to the next match are typed as they are. */
  lemma {:induction false} LiteralRun(draws: Draws, s: State, template: string, from: nat, start: nat)
    requires from <= start <= |template|
    requires forall i: nat :: from <= i < start ==> TokenAt(template, i).None?
    ensures Rendered(draws, s, Pieces(template, from)) ==
            Rendered(draws, Typed(s, template[from..start]), Pieces(template, start))
    decreases start - from
  {
    hide TokenAt, Pieces, Rendered;
    if from == start {
      assert s.note.text + template[from..start] == s.note.text;
      assert Typed(s, template[from..start]) == s;
    } else {
      var c := template[from];
      PieceAt(template, from);
      OnePiece(draws, s, Char(c), Pieces(template, from + 1));
      LiteralRun(draws, Typed(s, [c]), template, from + 1, start);
      assert s.note.text + template[from..start] == (s.note.text + [c]) + template[from + 1..start];
    }
  }

  lemma TokenStep(draws: Draws, s: State, template: string, start: nat, token: Piece)
    requires start < |template|
    ensures TokenAt(template, start) == Some(token) ==> start + |TokenText(token)| <= |template|
    ensures TokenAt(template, start) == Some(token) ==>
              Rendered(draws, s, Pieces(template, start)) ==
              Rendered(draws, Placed(draws, s, token), Pieces(template, start + |TokenText(token)|))
  {
    hide TokenAt, Placed, Pieces, Rendered, TokenText;
    if TokenAt(template, start) == Some(token) {
      PieceAt(template, start);
      OnePiece(draws, s, token, Pieces(template, start + |TokenText(token)|));
    }
  }

  method RenderTemplate(template: string, draws: Draws) returns (text: string, entities: seq<Entity>)
    ensures Note(text, entities) == NoteOf(draws, Pieces(template, 0))
  {
    hide TokenAt, TokenText, Pieces, Rendered, Redrawn, Join;
    NoParts();
    var parts: seq<string>, cursor, textLen, drawn := [], 0, 0, 0;
    var primary: map<Label, string> := map[];
    entities := [];
    var start, token := NextMatch(template, 0);
    while token.Some?
      invariant cursor <= start <= |template| && textLen == |Join(parts)|
      invariant token == (if start < |template| then TokenAt(template, start) else None)
      invariant token.None? ==> start == |template|
      invariant forall i: nat :: cursor <= i < start ==> TokenAt(template, i).None?
      invariant NoteOf(draws, Pieces(template, 0)) ==
                Rendered(draws, State(Note(Join(parts), entities), drawn, primary), Pieces(template, cursor)).note
      decreases |template| - cursor
    {
      ghost var s := State(Note(Join(parts), entities), drawn, primary);
      LiteralRun(draws, s, template, cursor, start);
      JoinOneMore(parts, template[cursor..start]);
      parts, textLen := parts + [template[cursor..start]], textLen + (start - cursor);
      s := Typed(s, template[cursor..start]);
      TokenStep(draws, s, template, start, token.value);
      cursor := start + |TokenText(token.value)|;
      TokenIsLong(token.value);
      match token.value {
        case Fake =>
          JoinOneMore(parts, FAKE_ORDER_REF);
          parts, textLen := parts + [FAKE_ORDER_REF], textLen + |FAKE_ORDER_REF|;
        case Slot(kind, second) =>
          var mention;
          mention, drawn := DrawMention(draws, kind, second, drawn, primary);
          if !second { primary := primary[kind := mention]; }
          JoinOneMore(parts, mention);
          parts := parts + [mention];
          entities := entities + [Entity(kind, mention, textLen, textLen + |mention|)];
          textLen := textLen + |mention|;
      }
      start, token := NextMatch(template, cursor);
    }
    LiteralRun(draws, State(Note(Join(parts), entities), drawn, primary), template, cursor, start);
    JoinOneMore(parts, template[cursor..]);
    assert template[cursor..start] == template[cursor..];
    NothingLeft(draws, Typed(State(Note(Join(parts), entities), drawn, primary), template[cursor..]), template);
    parts := parts + [template[cursor..]];
    text := Join(parts);
  }

  lemma TokenIsLong(piece: Piece)
    requires !piece.Char?
    ensures |TokenText(piece)| > 0
  {
  }

  /** One mention; a second one is drawn again up to ten times while it repeats the first. */
  method DrawMention(draws: Draws, kind: Label, second: bool, drawn: nat, primary: map<Label, string>)
    returns (mention: string, count: nat)
    ensures (mention, count) ==
            if second then
              var avoid := Primary(State(Note("", []), 0, primary), kind);
              Redrawn(draws, kind, avoid, drawn + 1, draws(drawn, kind), MAX_REDRAWS)
            else (draws(drawn, kind), drawn + 1)
  {
    mention, count := draws(drawn, kind), drawn + 1;
    if second {
      var avoid := if kind in primary then Some(primary[kind]) else None;
      var left := MAX_REDRAWS;
      while left > 0
        invariant Redrawn(draws, kind, avoid, count, mention, left) ==
                  Redrawn(draws, kind, avoid, drawn + 1, draws(drawn, kind), MAX_REDRAWS)
      {
        if Some(mention) != avoid { break; }
        mention, count := draws(count, kind), count + 1;
        left := left - 1;
      }
    }
  }
}
