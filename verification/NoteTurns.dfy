/**
  Exactly when every template of a bank is used before any is used again, whatever function of
  the draws renders a template; `NoteBanks` is about `render_template`.
 */
module NoteTurns {
  import opened Basics
  import opened NoteSplit
  import NoteTemplates

  type Label = NoteTemplates.Label
  type Draws = NoteTemplates.Draws

  ghost predicate UsedBefore(notes: seq<Made>, k: nat, template: string)
    requires k <= |notes|
  {
    exists i: nat :: i < k && notes[i].template == template
  }

  /** Whenever a note repeats an earlier one's template, every template of the bank came before it. */
  ghost predicate UsedBeforeRepeated(order: seq<string>, notes: seq<Made>) {
    forall j: nat, k: nat :: j < k < |notes| && notes[j].template == notes[k].template ==>
      forall t :: t in order ==> UsedBefore(notes, k, t)
  }

  // --- one label of a split ---

  /** The mentions there are of each kind. */
  type Vocabulary = (Label, string) -> bool

  ghost predicate DrawsFrom(vocab: Vocabulary, draws: Draws) {
    forall n: nat, kind: Label :: vocab(kind, draws(n, kind))
  }

  /** The shuffled bank, how many notes it must make, how it renders, and what a note may not be. */
  datatype Bank = Bank(order: seq<string>, perLabel: nat, vocab: Vocabulary, render: (string, Draws) -> string,
                       close: string -> bool, seen: set<string>) {
    ghost predicate CanRender(template: string, text: string) {
      exists draws: Draws :: DrawsFrom(vocab, draws) && render(template, draws) == text
    }

    /** What every attempt renders its template to. */
    function Rendered(draws: nat -> Draws): Texts {
      (k: nat, template: string) => render(template, draws(k))
    }

    function Attempts(): nat {
      perLabel * ATTEMPTS_PER_NOTE
    }

    function Run(texts: Texts, s: State): seq<Made> {
      Generate(order, perLabel, texts, close, s).state.notes
    }

    predicate Fresh(text: string) {
      text !in seen && !close(text)
    }

    ghost predicate Renders(texts: Texts) {
      forall k: nat, t :: t in order ==> CanRender(t, texts(k, t))
    }

    /** Attempt k draws `draws(k)`, all from the vocabulary. */
    ghost predicate Drawn(draws: nat -> Draws) {
      forall k: nat :: DrawsFrom(vocab, draws(k))
    }

    /** The notes of a label, given what every attempt draws. */
    function Notes(draws: nat -> Draws): seq<Made> {
      Run(Rendered(draws), Start(seen))
    }

    /** Different templates never render to the same text. */
    ghost predicate Apart() {
      Distinct(order) &&
      forall t, u, x :: t in order && u in order && CanRender(t, x) && CanRender(u, x) ==> t == u
    }

    ghost predicate CanLose(t: string) {
      exists x :: CanRender(t, x) && !Fresh(x)
    }

    /** The templates that may lose a turn. */
    ghost function Losers(): set<string> {
      set t | t in order && CanLose(t)
    }

    ghost function LosersBut(r: string): set<string> {
      Losers() - {r}
    }

    /** The i-th template is tried a second time while attempts last, and may make two notes. */
    ghost predicate CanRepeat(i: nat) {
      i < |order| && |order| + i < Attempts() &&
      exists x, y :: CanRender(order[i], x) && CanRender(order[i], y) && Fresh(x) && Fresh(y) && x != y
    }

    /** Too few others may lose their turn: none at all, or so few that the rest fills the split. */
    ghost predicate FewLosers(r: string) {
      LosersBut(r) == {} || |LosersBut(r)| <= |order| - perLabel
    }

    ghost predicate TurnsAreSafe() {
      forall i: nat :: CanRepeat(i) ==> FewLosers(order[i])
    }

    function At(p: nat): string
      requires order != []
    {
      order[p % |order|]
    }
  }

  // --- the first turns ---

  predicate NoneTwice(notes: seq<Made>) {
    forall j: nat, k: nat :: j < k < |notes| ==> notes[j].template != notes[k].template
  }

  ghost predicate Used(notes: seq<Made>, template: string) {
    UsedBefore(notes, |notes|, template)
  }

  /** Nothing has been used twice, and what was seen here is what was kept here. */
  ghost predicate FirstUses(bank: Bank, s: State) {
    && s.cycle == s.attempts && NoneTwice(s.notes) && bank.seen <= s.seen
    && (forall k: nat :: k < |s.notes| ==>
          && s.notes[k].template in bank.order && bank.CanRender(s.notes[k].template, s.notes[k].text)
          && bank.Fresh(s.notes[k].text) && s.notes[k].text in s.seen)
    && (forall x :: x in s.seen && x !in bank.seen ==> exists k: nat :: k < |s.notes| && s.notes[k].text == x)
  }

  lemma {:induction false} OnceUsed(notes: seq<Made>, template: string)
    requires NoneTwice(notes)
    ensures Uses(notes, template) <= 1
    ensures (forall k: nat :: k < |notes| ==> notes[k].template != template) ==> Uses(notes, template) == 0
  {
    if notes != [] { OnceUsed(notes[..|notes| - 1], template); }
  }

  function Tried(s: State): State {
    s.(cycle := s.cycle + 1, attempts := s.attempts + 1)
  }

  /** While nothing has been used twice, the candidate is the next template in the cycle. */
  lemma NextAttempt(bank: Bank, texts: Texts, s: State)
    requires bank.order != [] && NoneTwice(s.notes) && |s.notes| < bank.perLabel && s.attempts < bank.Attempts()
    ensures var template := bank.At(s.cycle);
            var text := texts(s.attempts, template);
            bank.Run(texts, s) ==
            bank.Run(texts, if Rejected(s, text, bank.close) then Tried(s) else Kept(Tried(s), template, text))
  {
    hide Uses, Generate;
    OneAttempt(bank.order, bank.perLabel, texts, bank.close, s);
    OnceUsed(s.notes, bank.At(s.cycle));
  }

  lemma {:induction false} NotesGrow(bank: Bank, texts: Texts, s: State)
    ensures s.notes <= bank.Run(texts, s)
    decreases bank.Attempts() - s.attempts
  {
    hide Pick;
    if |s.notes| < bank.perLabel && s.attempts < bank.Attempts() {
      var pick := Pick(bank.order, s.notes, s.cycle, |bank.order|);
      if pick.Some? {
        var template := bank.order[pick.value % |bank.order|];
        var text := texts(s.attempts, template);
        var next := s.(cycle := pick.value + 1, attempts := s.attempts + 1);
        NotesGrow(bank, texts, if Rejected(s, text, bank.close) then next else Kept(next, template, text));
      }
    }
  }

  /** A rendered text is kept exactly when it is fresh and its template has not made it yet. */
  lemma WhenRejected(bank: Bank, s: State, template: string, text: string)
    requires FirstUses(bank, s) && bank.Apart() && template in bank.order && bank.CanRender(template, text)
    ensures Rejected(s, text, bank.close) <==>
            !bank.Fresh(text) || exists k: nat :: k < |s.notes| && s.notes[k] == Made(template, text)
  {
    hide Bank.CanRender;
    if text in s.seen && text !in bank.seen {
      var k: nat :| k < |s.notes| && s.notes[k].text == text;
      assert s.notes[k] == Made(template, text);
    }
  }

  lemma FirstUsesGoOn(bank: Bank, s: State, template: string, text: string)
    requires FirstUses(bank, s) && bank.Apart() && template in bank.order && bank.CanRender(template, text)
    ensures FirstUses(bank, Tried(s))
    ensures !Rejected(s, text, bank.close) && !Used(s.notes, template) ==>
              FirstUses(bank, Kept(Tried(s), template, text))
  {
    hide Bank.CanRender;
    WhenRejected(bank, s, template, text);
    var t := Kept(Tried(s), template, text);
    if !Rejected(s, text, bank.close) && !Used(s.notes, template) {
      assert t.notes[|s.notes|].text == text;
      forall x | x in t.seen && x !in bank.seen ensures exists k: nat :: k < |t.notes| && t.notes[k].text == x {
        if x in s.seen {
          var k: nat :| k < |s.notes| && s.notes[k].text == x;
          assert t.notes[k].text == x;
        }
      }
    }
  }

  lemma UsedOneMore(notes: seq<Made>, made: Made, template: string)
    ensures Used(notes + [made], template) <==> Used(notes, template) || made.template == template
  {
    var more := notes + [made];
    if Used(notes, template) {
      var i: nat :| i < |notes| && notes[i].template == template;
      assert more[i].template == template;
    }
    if made.template == template { assert more[|notes|].template == template; }
  }

  // --- counting ---

  ghost function Templates(notes: seq<Made>): set<string> {
    set k: nat | k < |notes| :: notes[k].template
  }

  lemma UsedAreTemplates(notes: seq<Made>, t: string)
    ensures t in Templates(notes) <==> Used(notes, t)
  {
  }

  lemma {:induction false} DistinctCount(order: seq<string>)
    requires Distinct(order)
    ensures |set t | t in order| == |order|
  {
    var all := set t | t in order;
    if order == [] {
      assert all == {};
    } else {
      var n := |order| - 1;
      DistinctCount(order[..n]);
      assert all == (set t | t in order[..n]) + {order[n]};
    }
  }

  lemma {:induction false} TemplatesCount(notes: seq<Made>)
    ensures |Templates(notes)| <= |notes| && (NoneTwice(notes) ==> |Templates(notes)| == |notes|)
  {
    if notes == [] {
      assert Templates(notes) == {};
    } else {
      var n := |notes| - 1;
      TemplatesCount(notes[..n]);
      assert Templates(notes) == Templates(notes[..n]) + {notes[n].template};
    }
  }

  lemma SubsetCount<T>(a: set<T>, b: set<T>)
    requires a <= b
    ensures |a| <= |b| && |b - a| == |b| - |a|
  {
    assert b == a + (b - a);
  }

  /** Templates without a note: the bank is long enough to leave as many as the notes leave. */
  lemma UnusedCount(bank: Bank, notes: seq<Made>, others: set<string>)
    requires Distinct(bank.order) && forall k: nat :: k < |notes| ==> notes[k].template in bank.order
    requires forall t :: t in bank.order && t !in Templates(notes) ==> t in others
    ensures |others| >= |bank.order| - |notes|
  {
    var all := set t | t in bank.order;
    DistinctCount(bank.order);
    TemplatesCount(notes);
    SubsetCount(Templates(notes), all);
    SubsetCount(all - Templates(notes), others);
  }

  /** Notes of different templates, none of them one of `others`. */
  lemma UsedCount(bank: Bank, notes: seq<Made>, others: set<string>)
    requires Distinct(bank.order) && NoneTwice(notes)
    requires forall k: nat :: k < |notes| ==> notes[k].template in bank.order && notes[k].template !in others
    requires forall t :: t in others ==> t in bank.order
    ensures |notes| <= |bank.order| - |others|
  {
    var all := set t | t in bank.order;
    DistinctCount(bank.order);
    TemplatesCount(notes);
    SubsetCount(others, all);
    SubsetCount(Templates(notes), all - others);
  }

  // --- going round ---

  lemma Lap(n: nat, p: nat, q: nat)
    requires n > 0 && q < p && p % n == q % n
    ensures n + q % n <= p
  {
    assert p == n * (p / n) + p % n && q == n * (q / n) + q % n;
    assert n * (p / n - q / n) == p - q;
    MultipleIsFar(n, p / n - q / n);
    assert n * (q / n) >= 0;
  }

  lemma FirstLap(n: nat, p: nat)
    requires p < n
    ensures p % n == p && (n + p) % n == p
  {
    SameRemainder(n, 0, p);
    SameRemainder(n, 1, p);
  }

  // --- how the promise is kept ---

  /** Every template that was tried made a note, or is one that may lose its turn. */
  ghost predicate Settled(bank: Bank, s: State)
    requires bank.order != []
  {
    && (forall p: nat :: p < s.attempts ==> Used(s.notes, bank.At(p)) || bank.At(p) in bank.Losers())
    && (forall t :: Used(s.notes, t) ==> exists p: nat :: p < s.attempts && bank.At(p) == t)
  }

  lemma SettledGoesOn(bank: Bank, s: State, text: string)
    requires bank.order != [] && FirstUses(bank, s) && Settled(bank, s) && bank.Apart()
    requires bank.CanRender(bank.At(s.cycle), text)
    ensures Rejected(s, text, bank.close) ==> Settled(bank, Tried(s))
    ensures !Rejected(s, text, bank.close) ==> Settled(bank, Kept(Tried(s), bank.At(s.cycle), text))
  {
    hide Bank.CanRender;
    var template := bank.At(s.cycle);
    var t := if Rejected(s, text, bank.close) then Tried(s) else Kept(Tried(s), template, text);
    WhenRejected(bank, s, template, text);
    forall u ensures Used(t.notes, u) <==> Used(s.notes, u) || (u == template && t.notes != s.notes) {
      UsedOneMore(s.notes, Made(template, text), u);
    }
    hide Used;
    forall p: nat | p < t.attempts ensures Used(t.notes, bank.At(p)) || bank.At(p) in bank.Losers() {
      if p == s.attempts && t.notes == s.notes {
        if bank.Fresh(text) { MadeIsUsed(s.notes, Made(template, text)); }
      }
    }
    forall u | Used(t.notes, u) ensures exists p: nat :: p < t.attempts && bank.At(p) == u {
      if Used(s.notes, u) {
        var p: nat :| p < s.attempts && bank.At(p) == u;
      } else {
        assert bank.At(s.attempts) == u;
      }
    }
  }

  lemma MadeIsUsed(notes: seq<Made>, made: Made)
    requires exists k: nat :: k < |notes| && notes[k] == made
    ensures Used(notes, made.template)
  {
    var k: nat :| k < |notes| && notes[k] == made;
    assert notes[k].template == made.template;
  }

  /** When a used template is tried again, a whole turn lies behind it. */
  lemma ATurnBehind(bank: Bank, s: State)
    requires bank.order != [] && s.cycle == s.attempts && Settled(bank, s) && Used(s.notes, bank.At(s.cycle))
    requires Distinct(bank.order)
    ensures |bank.order| + s.cycle % |bank.order| <= s.attempts
    ensures forall t :: t in bank.order ==> Used(s.notes, t) || t in bank.Losers()
  {
    hide Used, Bank.Losers;
    var n := |bank.order|;
    var p: nat :| p < s.attempts && bank.At(p) == bank.At(s.cycle);
    assert p % n == s.cycle % n;
    Lap(n, s.cycle, p);
    forall t | t in bank.order ensures Used(s.notes, t) || t in bank.Losers() {
      var q: nat :| q < n && bank.order[q] == t;
      FirstLap(n, q);
      assert bank.At(q) == t;
    }
  }

  /** When a template is about to make a second note, all have made one. */
  lemma AllAreUsed(bank: Bank, s: State, i: nat, text: string)
    requires FirstUses(bank, s) && bank.Apart() && bank.TurnsAreSafe() && |s.notes| < bank.perLabel
    requires i < |bank.order| && |bank.order| + i <= s.attempts < bank.Attempts() && Used(s.notes, bank.order[i])
    requires forall t :: t in bank.order ==> Used(s.notes, t) || t in bank.Losers()
    requires bank.CanRender(bank.order[i], text) && !Rejected(s, text, bank.close)
    ensures forall t :: t in bank.order ==> Used(s.notes, t)
  {
    hide Bank.CanRender;
    var r := bank.order[i];
    var k: nat :| k < |s.notes| && s.notes[k].template == r;
    assert bank.CanRepeat(i) by {
      assert bank.Fresh(s.notes[k].text) && bank.Fresh(text) && s.notes[k].text != text;
    }
    forall t ensures t in Templates(s.notes) <==> Used(s.notes, t) {
      UsedAreTemplates(s.notes, t);
    }
    UnusedCount(bank, s.notes, bank.LosersBut(r));
    assert bank.FewLosers(r);
  }

  lemma LateRepeats(order: seq<string>, early: seq<Made>, notes: seq<Made>)
    requires NoneTwice(early) && early <= notes
    requires forall t :: t in order ==> Used(early, t)
    ensures UsedBeforeRepeated(order, notes)
  {
    forall j: nat, k: nat, t | j < k < |notes| && notes[j].template == notes[k].template && t in order
      ensures UsedBefore(notes, k, t)
    {
      assert |early| <= k;
      assert Used(early, t);
      var i: nat :| i < |early| && early[i].template == t;
      assert notes[i].template == t;
    }
  }

  lemma NoneRepeats(order: seq<string>, notes: seq<Made>)
    requires NoneTwice(notes)
    ensures UsedBeforeRepeated(order, notes)
  {
  }

  lemma {:induction false} TurnsAreKept(bank: Bank, texts: Texts, s: State)
    requires bank.Apart() && bank.Renders(texts) && bank.TurnsAreSafe() && FirstUses(bank, s)
    requires bank.order != [] ==> Settled(bank, s)
    ensures UsedBeforeRepeated(bank.order, bank.Run(texts, s))
    decreases bank.Attempts() - s.attempts
  {
    hide Generate, Bank.CanRender, Settled;
    OneAttempt(bank.order, bank.perLabel, texts, bank.close, s);
    if |s.notes| < bank.perLabel && s.attempts < bank.Attempts() && bank.order != [] {
      var template := bank.At(s.cycle);
      var text := texts(s.attempts, template);
      assert bank.CanRender(template, text);
      NextAttempt(bank, texts, s);
      FirstUsesGoOn(bank, s, template, text);
      SettledGoesOn(bank, s, text);
      if Rejected(s, text, bank.close) {
        TurnsAreKept(bank, texts, Tried(s));
      } else if Used(s.notes, template) {
        ATurnBehind(bank, s);
        AllAreUsed(bank, s, s.cycle % |bank.order|, text);
        NotesGrow(bank, texts, s);
        LateRepeats(bank.order, s.notes, bank.Run(texts, s));
      } else {
        TurnsAreKept(bank, texts, Kept(Tried(s), template, text));
      }
    } else {
      NoneRepeats(bank.order, s.notes);
    }
  }

  // --- how it fails ---

  /** `r` renders to `x` in the first turn and to `y` from then on; every other template to its one line. */
  function Script(n: nat, r: string, x: string, y: string, lines: map<string, string>): Texts {
    (k: nat, t: string) => if t == r then (if k < n then x else y) else if t in lines then lines[t] else ""
  }

  /** A losing text for the templates that have one, any text for the others. */
  ghost predicate LinesFor(bank: Bank, r: string, lines: map<string, string>) {
    forall t :: t in bank.order && t != r ==>
      t in lines && bank.CanRender(t, lines[t]) && (bank.CanLose(t) ==> !bank.Fresh(lines[t]))
  }

  lemma SomethingRenders(bank: Bank, r: string, x: string, t: string) returns (y: string)
    requires bank.CanRender(r, x)
    ensures bank.CanRender(t, y) && (bank.CanLose(t) ==> !bank.Fresh(y))
  {
    if bank.CanLose(t) {
      y :| bank.CanRender(t, y) && !bank.Fresh(y);
    } else {
      var draws: Draws :| DrawsFrom(bank.vocab, draws) && bank.render(r, draws) == x;
      y := bank.render(t, draws);
    }
  }

  lemma {:induction false} LinesExist(bank: Bank, r: string, x: string, order: seq<string>)
    returns (lines: map<string, string>)
    requires bank.CanRender(r, x)
    ensures forall t :: t in order ==>
              t in lines && bank.CanRender(t, lines[t]) && (bank.CanLose(t) ==> !bank.Fresh(lines[t]))
  {
    hide Bank.CanRender;
    lines := map[];
    if order != [] {
      var rest := LinesExist(bank, r, x, order[1..]);
      var y := SomethingRenders(bank, r, x, order[0]);
      lines := rest[order[0] := y];
    }
  }

  /** The notes have the texts of the script, and none is of a losing template. */
  ghost predicate AsWritten(bank: Bank, r: string, x: string, lines: map<string, string>, notes: seq<Made>) {
    forall k: nat :: k < |notes| ==>
      var u := notes[k].template;
      u !in bank.LosersBut(r) && (u != r ==> u in lines) && notes[k].text == if u == r then x else lines[u]
  }

  /** Each template tried so far has made a note or is losing its turn. */
  ghost predicate TriedAll(bank: Bank, r: string, s: State) {
    forall q: nat :: q < |bank.order| && q < s.attempts ==>
      bank.order[q] in bank.LosersBut(r) || Used(s.notes, bank.order[q])
  }

  ghost predicate Acting(bank: Bank, r: string, x: string, lines: map<string, string>, s: State) {
    FirstUses(bank, s) && AsWritten(bank, r, x, lines, s.notes) && TriedAll(bank, r, s)
  }

  /** What `RejectionsBreakTurns` needs to know of its parameters. */
  ghost predicate Breaks(bank: Bank, i: nat, x: string, y: string) {
    && bank.Apart() && i < |bank.order| && |bank.order| + i < bank.Attempts()
    && bank.CanRender(bank.order[i], x) && bank.CanRender(bank.order[i], y)
    && bank.Fresh(x) && bank.Fresh(y) && x != y && !bank.FewLosers(bank.order[i])
  }

  lemma AtInOrder(bank: Bank, p: nat)
    requires bank.order != []
    ensures bank.At(p) in bank.order && (p < |bank.order| ==> bank.At(p) == bank.order[p])
  {
    if p < |bank.order| { FirstLap(|bank.order|, p); }
  }

  /** The i-th template's second turn is not before attempt |order| + i. */
  lemma SecondTurn(bank: Bank, i: nat, p: nat)
    requires Distinct(bank.order) && i < |bank.order| && p < |bank.order| + i && bank.At(p) == bank.order[i]
    ensures p < |bank.order|
  {
    if |bank.order| <= p { FirstLap(|bank.order|, p - |bank.order|); }
  }

  /** The script's text before the repeat. */
  lemma ScriptedText(bank: Bank, i: nat, x: string, y: string, lines: map<string, string>, p: nat)
    requires Breaks(bank, i, x, y) && LinesFor(bank, bank.order[i], lines) && p < |bank.order| + i
    ensures var template, r := bank.At(p), bank.order[i];
            var text := Script(|bank.order|, r, x, y, lines)(p, template);
            && template in bank.order && bank.CanRender(template, text)
            && text == (if template == r then x else if template in lines then lines[template] else "")
            && (template != r ==> template in lines)
            && (bank.Fresh(text) <==> template !in bank.LosersBut(r))
  {
    hide Bank.CanRender, Bank.At;
    AtInOrder(bank, p);
    if bank.At(p) == bank.order[i] { SecondTurn(bank, i, p); }
  }

  lemma TriedGoesOn(bank: Bank, r: string, s: State, t: State)
    requires bank.order != [] && TriedAll(bank, r, s) && t.attempts == s.attempts + 1
    requires forall u :: Used(s.notes, u) ==> Used(t.notes, u)
    requires bank.At(s.attempts) in bank.LosersBut(r) || Used(t.notes, bank.At(s.attempts))
    ensures TriedAll(bank, r, t)
  {
    hide Used, Bank.At, Bank.LosersBut;
    AtInOrder(bank, s.attempts);
  }

  /** A template's text is its one line, so it is rejected exactly when losing or already used. */
  lemma RejectedAgain(bank: Bank, r: string, x: string, lines: map<string, string>, s: State, made: Made)
    requires bank.Apart() && FirstUses(bank, s) && AsWritten(bank, r, x, lines, s.notes)
    requires made.template in bank.order && bank.CanRender(made.template, made.text)
    requires (made.template != r ==> made.template in lines)
             && made.text == (if made.template == r then x else lines[made.template])
    ensures Rejected(s, made.text, bank.close) <==> !bank.Fresh(made.text) || Used(s.notes, made.template)
  {
    hide Bank.CanRender, Rejected, Bank.LosersBut;
    WhenRejected(bank, s, made.template, made.text);
    if Used(s.notes, made.template) {
      var k: nat :| k < |s.notes| && s.notes[k].template == made.template;
      assert s.notes[k] == made;
    }
  }

  /** One attempt of the script before the repeat. */
  lemma ActingGoesOn(bank: Bank, r: string, x: string, lines: map<string, string>, s: State, text: string)
    requires bank.Apart() && bank.order != [] && Acting(bank, r, x, lines, s)
    requires var template := bank.At(s.cycle);
             && bank.CanRender(template, text) && (template != r ==> template in lines)
             && text == (if template == r then x else lines[template])
             && (bank.Fresh(text) <==> template !in bank.LosersBut(r))
    ensures Acting(bank, r, x, lines, if Rejected(s, text, bank.close) then Tried(s)
                   else Kept(Tried(s), bank.At(s.cycle), text))
  {
    hide Bank.CanRender, Rejected, TriedAll, Used, Bank.At, Bank.LosersBut, Bank.Fresh;
    var template := bank.At(s.cycle);
    var made := Made(template, text);
    AtInOrder(bank, s.cycle);
    RejectedAgain(bank, r, x, lines, s, made);
    FirstUsesGoOn(bank, s, template, text);
    CycleIsAttempts(bank, s);
    hide FirstUses;
    if Rejected(s, text, bank.close) {
      TriedGoesOn(bank, r, s, Tried(s));
    } else {
      forall u ensures Used(s.notes + [made], u) <==> Used(s.notes, u) || u == template {
        UsedOneMore(s.notes, made, u);
      }
      TriedGoesOn(bank, r, s, Kept(Tried(s), template, text));
    }
  }

  lemma FewNotes(bank: Bank, i: nat, x: string, y: string, lines: map<string, string>, s: State)
    requires Breaks(bank, i, x, y) && Acting(bank, bank.order[i], x, lines, s)
    ensures |s.notes| < bank.perLabel
  {
    hide Bank.CanRender;
    UsedCount(bank, s.notes, bank.LosersBut(bank.order[i]));
  }

  /** The i-th template's second note, at its second turn. */
  lemma SecondNote(bank: Bank, i: nat, x: string, y: string, lines: map<string, string>, s: State) returns (j: nat)
    requires Breaks(bank, i, x, y) && Acting(bank, bank.order[i], x, lines, s) && s.attempts == |bank.order| + i
    ensures j < |s.notes| && s.notes[j].template == bank.At(s.cycle) == bank.order[i]
    ensures !Rejected(s, y, bank.close)
    ensures forall t :: t in bank.LosersBut(bank.order[i]) ==> !Used(s.notes, t)
  {
    hide Bank.CanRender, Rejected;
    FirstLap(|bank.order|, i);
    WhenRejected(bank, s, bank.order[i], y);
    assert Used(s.notes, bank.order[i]);
    j :| j < |s.notes| && s.notes[j].template == bank.order[i];
  }

  lemma {:induction false} ScriptRuns(bank: Bank, i: nat, x: string, y: string, lines: map<string, string>, s: State)
    returns (j: nat, k: nat)
    requires Breaks(bank, i, x, y) && LinesFor(bank, bank.order[i], lines) && Acting(bank, bank.order[i], x, lines, s)
    requires s.attempts <= |bank.order| + i
    ensures var r := bank.order[i];
            var notes := bank.Run(Script(|bank.order|, r, x, y, lines), s);
            && j < k < |notes| && notes[j].template == notes[k].template == r
            && forall t :: t in bank.LosersBut(r) ==> !UsedBefore(notes, k, t)
    decreases |bank.order| + i - s.attempts
  {
    hide Bank.CanRender, Generate, Rejected, FirstUses, AsWritten, TriedAll, LinesFor;
    var n, r := |bank.order|, bank.order[i];
    var texts := Script(n, r, x, y, lines);
    CycleIsAttempts(bank, s);
    FewNotes(bank, i, x, y, lines, s);
    NextAttempt(bank, texts, s);
    if s.attempts < n + i {
      var text := texts(s.attempts, bank.At(s.cycle));
      ScriptedText(bank, i, x, y, lines, s.attempts);
      ActingGoesOn(bank, r, x, lines, s, text);
      j, k := ScriptRuns(bank, i, x, y, lines, if Rejected(s, text, bank.close) then Tried(s)
          else Kept(Tried(s), bank.At(s.cycle), text));
    } else {
      j := SecondNote(bank, i, x, y, lines, s);
      k := |s.notes|;
      NotesGrow(bank, texts, Kept(Tried(s), r, y));
      SameBefore(s.notes, bank.Run(texts, s));
    }
  }

  lemma CycleIsAttempts(bank: Bank, s: State)
    requires FirstUses(bank, s)
    ensures s.cycle == s.attempts && NoneTwice(s.notes)
  {
  }

  lemma SameBefore(notes: seq<Made>, more: seq<Made>)
    requires notes <= more
    ensures forall t :: UsedBefore(more, |notes|, t) <==> Used(notes, t)
  {
  }

  // --- texts that can be rendered come from draws ---

  lemma {:induction false} SameLater(bank: Bank, a: Texts, b: Texts, s: State)
    requires forall k: nat, t: string :: k >= s.attempts ==> a(k, t) == b(k, t)
    ensures bank.Run(a, s) == bank.Run(b, s)
    decreases bank.Attempts() - s.attempts
  {
    hide Pick, Generate;
    OneAttempt(bank.order, bank.perLabel, a, bank.close, s);
    OneAttempt(bank.order, bank.perLabel, b, bank.close, s);
    if |s.notes| < bank.perLabel && s.attempts < bank.Attempts() {
      var pick := Pick(bank.order, s.notes, s.cycle, |bank.order|);
      if pick.Some? {
        var template := bank.order[pick.value % |bank.order|];
        var text := a(s.attempts, template);
        var next := s.(cycle := pick.value + 1, attempts := s.attempts + 1);
        SameLater(bank, a, b, if Rejected(s, text, bank.close) then next else Kept(next, template, text));
      }
    }
  }

  lemma {:induction false} DrawsExist(bank: Bank, texts: Texts, s: State, any: Draws)
    returns (draws: nat -> Draws)
    requires bank.Renders(texts) && DrawsFrom(bank.vocab, any)
    ensures bank.Drawn(draws) && bank.Run(bank.Rendered(draws), s) == bank.Run(texts, s)
    decreases bank.Attempts() - s.attempts
  {
    hide Pick, Generate, DrawsFrom;
    draws := (k: nat) => any;
    OneAttempt(bank.order, bank.perLabel, texts, bank.close, s);
    OneAttempt(bank.order, bank.perLabel, bank.Rendered(draws), bank.close, s);
    if |s.notes| < bank.perLabel && s.attempts < bank.Attempts() {
      var pick := Pick(bank.order, s.notes, s.cycle, |bank.order|);
      if pick.Some? {
        var template := bank.order[pick.value % |bank.order|];
        var text := texts(s.attempts, template);
        var next := s.(cycle := pick.value + 1, attempts := s.attempts + 1);
        var after := if Rejected(s, text, bank.close) then next else Kept(next, template, text);
        var later := DrawsExist(bank, texts, after, any);
        assert bank.CanRender(template, text);
        var now: Draws :| DrawsFrom(bank.vocab, now) && bank.render(template, now) == text;
        draws := (k: nat) => if k == s.attempts then now else later(k);
        SameLater(bank, bank.Rendered(draws), bank.Rendered(later), after);
        OneAttempt(bank.order, bank.perLabel, bank.Rendered(draws), bank.close, s);
      }
    }
  }

  /**
    When the i-th template may make two notes and too many of the others may lose their turn, some
    run renders it twice before any of those others was used at all.
   */
  lemma RejectionsBreakTurns(bank: Bank, i: nat, x: string, y: string)
    returns (draws: nat -> Draws, j: nat, k: nat)
    requires Breaks(bank, i, x, y)
    ensures bank.Drawn(draws)
    ensures var notes := bank.Notes(draws);
            && j < k < |notes| && notes[j].template == notes[k].template == bank.order[i]
            && bank.LosersBut(bank.order[i]) != {}
            && forall t :: t in bank.LosersBut(bank.order[i]) ==> t in bank.order && !UsedBefore(notes, k, t)
  {
    var any: Draws :| DrawsFrom(bank.vocab, any) && bank.render(bank.order[i], any) == x;
    hide Bank.CanRender, Generate, DrawsFrom;
    var lines := LinesExist(bank, bank.order[i], x, bank.order);
    var texts := Script(|bank.order|, bank.order[i], x, y, lines);
    assert bank.Renders(texts);
    ActingStarts(bank, bank.order[i], x, lines);
    j, k := ScriptRuns(bank, i, x, y, lines, Start(bank.seen));
    draws := DrawsExist(bank, texts, Start(bank.seen), any);
  }

  lemma ActingStarts(bank: Bank, r: string, x: string, lines: map<string, string>)
    ensures Acting(bank, r, x, lines, Start(bank.seen))
  {
    hide Bank.CanRender;
  }

  /**
    The documentation promises that every template is used before any repeats. For a bank whose
    templates render apart that is so, whatever is drawn, exactly when no template that may make
    two notes has, beside it, templates that may lose their turn, enough of them that the rest of
    the bank does not fill the split.
   */
  lemma TurnsExactly(bank: Bank)
    requires bank.Apart()
    ensures (forall draws: nat -> Draws :: bank.Drawn(draws) ==>
              UsedBeforeRepeated(bank.order, bank.Notes(draws)))
            <==> bank.TurnsAreSafe()
  {
    hide Generate, DrawsFrom;
    if bank.TurnsAreSafe() {
      forall draws: nat -> Draws | bank.Drawn(draws)
        ensures UsedBeforeRepeated(bank.order, bank.Notes(draws))
      {
        assert bank.Renders(bank.Rendered(draws));
        TurnsAreKept(bank, bank.Rendered(draws), Start(bank.seen));
      }
    } else {
      hide Bank.CanRender;
      var i: nat :| bank.CanRepeat(i) && !bank.FewLosers(bank.order[i]);
      var x, y :| bank.CanRender(bank.order[i], x) && bank.CanRender(bank.order[i], y)
                  && bank.Fresh(x) && bank.Fresh(y) && x != y;
      var draws, j, k := RejectionsBreakTurns(bank, i, x, y);
      var t :| t in bank.LosersBut(bank.order[i]);
      assert !UsedBefore(bank.Notes(draws), k, t);
      assert !UsedBeforeRepeated(bank.order, bank.Notes(draws));
    }
  }
}
