/** Generating the notes of one label: templates in shuffled order, cycled, each used a bounded number of times. */
module NoteSplit {
  import opened Basics

  const MAX_USES_PER_TEMPLATE: nat := 3
  const ATTEMPTS_PER_NOTE: nat := 1000

  datatype Made = Made(template: string, text: string)

  /** What the n-th attempt renders a template to, whatever the random generator draws. */
  type Texts = (nat, string) -> string

  datatype State = State(notes: seq<Made>, seen: set<string>, cycle: nat, attempts: nat)

  /** Enough notes, or one of the two RuntimeErrors. */
  datatype End = Finished(state: State) | GaveUp(state: State) | Exhausted(state: State)

  function Uses(notes: seq<Made>, template: string): nat {
    if notes == [] then 0
    else Uses(notes[..|notes| - 1], template) + if notes[|notes| - 1].template == template then 1 else 0
  }

  /** The first of the next `left` positions of the cycle whose template may still be used. */
  function Pick(order: seq<string>, notes: seq<Made>, cycle: nat, left: nat): (pick: Option<nat>)
    requires left > 0 ==> order != []
    ensures pick.Some? ==> left > 0
    decreases left
  {
    if left == 0 then None
    else if Uses(notes, order[cycle % |order|]) < MAX_USES_PER_TEMPLATE then Some(cycle)
    else Pick(order, notes, cycle + 1, left - 1)
  }

  predicate Rejected(s: State, text: string, close: string -> bool) {
    text in s.seen || close(text)
  }

  function Kept(s: State, template: string, text: string): State {
    s.(notes := s.notes + [Made(template, text)], seen := s.seen + {text})
  }

  /** `close` is true of a text too similar to the other split. */
  function Generate(order: seq<string>, perLabel: nat, texts: Texts, close: string -> bool, s: State): End
    decreases perLabel * ATTEMPTS_PER_NOTE - s.attempts
  {
    if |s.notes| >= perLabel then Finished(s)
    else if s.attempts >= perLabel * ATTEMPTS_PER_NOTE then GaveUp(s)
    else
      var pick := Pick(order, s.notes, s.cycle, |order|);
      if pick.None? then Exhausted(s)
      else
        var template := order[pick.value % |order|];
        var text := texts(s.attempts, template);
        var next := s.(cycle := pick.value + 1, attempts := s.attempts + 1);
        Generate(order, perLabel, texts, close, if Rejected(s, text, close) then next else Kept(next, template, text))
  }

  function Start(seen: set<string>): State {
    State([], seen, 0, 0)
  }

  // --- the loop ---

  lemma UsesOneMore(notes: seq<Made>, made: Made, template: string)
    ensures Uses(notes + [made], template) == Uses(notes, template) + if made.template == template then 1 else 0
  {
    assert (notes + [made])[..|notes|] == notes;
  }

  /** The usage dictionary counts the notes kept. */
  ghost predicate Counts(usage: map<string, nat>, order: seq<string>, notes: seq<Made>) {
    forall t :: t in order ==> t in usage && usage[t] == Uses(notes, t)
  }

  method NextTemplate(order: seq<string>, usage: map<string, nat>, cycle: nat, ghost notes: seq<Made>)
    returns (template: Option<string>, next: nat)
    requires Counts(usage, order, notes)
    ensures var pick := Pick(order, notes, cycle, |order|);
            (template.None? <==> pick.None?) && (template.Some? ==> template.value in order)
            && (pick.Some? ==> template == Some(order[pick.value % |order|]) && next == pick.value + 1)
  {
    hide Uses;
    next := cycle;
    var left: int := |order|;
    while left > 0
      invariant 0 <= left
      invariant Pick(order, notes, next, left) == Pick(order, notes, cycle, |order|)
    {
      var candidate := order[next % |order|];
      assert candidate in order;
      next := next + 1;
      if usage[candidate] < MAX_USES_PER_TEMPLATE { return Some(candidate), next; }
      left := left - 1;
    }
    template := None;
  }

  lemma Counted(usage: map<string, nat>, order: seq<string>, notes: seq<Made>, template: string)
    requires Counts(usage, order, notes) && template in order
    ensures template in usage
  {
  }

  lemma CountsOneMore(usage: map<string, nat>, order: seq<string>, notes: seq<Made>, made: Made)
    requires Counts(usage, order, notes) && made.template in order
    ensures Counts(usage[made.template := usage[made.template] + 1], order, notes + [made])
  {
    forall t | t in order ensures Uses(notes + [made], t) == Uses(notes, t) + if made.template == t then 1 else 0 {
      UsesOneMore(notes, made, t);
    }
  }

  lemma OneAttempt(order: seq<string>, perLabel: nat, texts: Texts, close: string -> bool, s: State)
    ensures var end := Generate(order, perLabel, texts, close, s);
            var pick := Pick(order, s.notes, s.cycle, |order|);
            if |s.notes| >= perLabel then end == Finished(s)
            else if s.attempts >= perLabel * ATTEMPTS_PER_NOTE then end == GaveUp(s)
            else if pick.None? then end == Exhausted(s)
            else
              var template := order[pick.value % |order|];
              var text := texts(s.attempts, template);
              var next := s.(cycle := pick.value + 1, attempts := s.attempts + 1);
              end == Generate(order, perLabel, texts, close, if Rejected(s, text, close) then next
                  else Kept(next, template, text))
  {
    hide Pick;
  }

  method GenerateLabel(order: seq<string>, perLabel: nat, texts: Texts, close: string -> bool, seenTexts: set<string>)
    returns (end: End)
    ensures end == Generate(order, perLabel, texts, close, Start(seenTexts))
  {
    hide Uses, Pick, Generate, Counts;
    var usage := map t | t in order :: 0;
    var notes: seq<Made>, seen, cycle, attempts := [], seenTexts, 0, 0;
    NoUses(order);
    while |notes| < perLabel
      invariant attempts <= perLabel * ATTEMPTS_PER_NOTE && Counts(usage, order, notes)
      invariant Generate(order, perLabel, texts, close, State(notes, seen, cycle, attempts)) ==
                Generate(order, perLabel, texts, close, Start(seenTexts))
      decreases perLabel * ATTEMPTS_PER_NOTE - attempts
    {
      OneAttempt(order, perLabel, texts, close, State(notes, seen, cycle, attempts));
      if attempts + 1 > perLabel * ATTEMPTS_PER_NOTE { return GaveUp(State(notes, seen, cycle, attempts)); }
      var template, next := NextTemplate(order, usage, cycle, notes);
      if template.None? { return Exhausted(State(notes, seen, cycle, attempts)); }
      var text := texts(attempts, template.value);
      cycle, attempts := next, attempts + 1;
      if text in seen || close(text) { continue; }
      CountsOneMore(usage, order, notes, Made(template.value, text));
      assert template.value in usage by { Counted(usage, order, notes, template.value); }
      seen, usage := seen + {text}, usage[template.value := usage[template.value] + 1];
      notes := notes + [Made(template.value, text)];
    }
    OneAttempt(order, perLabel, texts, close, State(notes, seen, cycle, attempts));
    return Finished(State(notes, seen, cycle, attempts));
  }

  lemma NoUses(order: seq<string>)
    ensures Counts(map t | t in order :: 0, order, [])
  {
  }

  // --- what always holds ---

  /** Templates of the bank, each within its cap, and texts that are new, distinct and not too close. */
  ghost predicate Sound(order: seq<string>, close: string -> bool, seen0: set<string>, s: State) {
    && (forall t :: Uses(s.notes, t) <= MAX_USES_PER_TEMPLATE)
    && (forall k: nat :: k < |s.notes| ==>
          && s.notes[k].template in order && s.notes[k].text in s.seen
          && s.notes[k].text !in seen0 && !close(s.notes[k].text))
    && (forall j: nat, k: nat :: j < k < |s.notes| ==> s.notes[j].text != s.notes[k].text)
    && seen0 <= s.seen
  }

  lemma {:induction false} PickIsUsable(order: seq<string>, notes: seq<Made>, cycle: nat, left: nat)
    requires left > 0 ==> order != []
    ensures var pick := Pick(order, notes, cycle, left);
            if pick.Some? then
              cycle <= pick.value < cycle + left && Uses(notes, order[pick.value % |order|]) < MAX_USES_PER_TEMPLATE
            else forall k: nat :: cycle <= k < cycle + left ==> Uses(notes, order[k % |order|]) >= MAX_USES_PER_TEMPLATE
    decreases left
  {
    hide Uses;
    if left > 0 && Uses(notes, order[cycle % |order|]) >= MAX_USES_PER_TEMPLATE {
      PickIsUsable(order, notes, cycle + 1, left - 1);
    }
  }

  lemma KeptIsSound(order: seq<string>, close: string -> bool, seen0: set<string>, s: State, template: string,
                    text: string)
    requires Sound(order, close, seen0, s) && template in order
    requires Uses(s.notes, template) < MAX_USES_PER_TEMPLATE && !Rejected(s, text, close)
    ensures Sound(order, close, seen0, Kept(s, template, text))
  {
    var t := Kept(s, template, text);
    forall x ensures Uses(t.notes, x) <= MAX_USES_PER_TEMPLATE { UsesOneMore(s.notes, Made(template, text), x); }
  }

  lemma {:induction false} GenerateIsSound(order: seq<string>, perLabel: nat, texts: Texts, close: string -> bool,
                                           seen0: set<string>, s: State)
    requires Sound(order, close, seen0, s) && |s.notes| <= perLabel && s.attempts <= perLabel * ATTEMPTS_PER_NOTE
    ensures var end := Generate(order, perLabel, texts, close, s);
            && Sound(order, close, seen0, end.state) && |end.state.notes| <= perLabel
            && (end.Finished? ==> |end.state.notes| == perLabel)
            && (end.GaveUp? ==> end.state.attempts == perLabel * ATTEMPTS_PER_NOTE)
            && (end.Exhausted? ==> |end.state.notes| < perLabel
                                   && forall t :: t in order ==> Uses(end.state.notes, t) == MAX_USES_PER_TEMPLATE)
    decreases perLabel * ATTEMPTS_PER_NOTE - s.attempts
  {
    hide Uses, Pick, Sound;
    if |s.notes| < perLabel && s.attempts < perLabel * ATTEMPTS_PER_NOTE {
      PickIsUsable(order, s.notes, s.cycle, |order|);
      var pick := Pick(order, s.notes, s.cycle, |order|);
      if pick.Some? {
        var template := order[pick.value % |order|];
        var text := texts(s.attempts, template);
        var next := s.(cycle := pick.value + 1, attempts := s.attempts + 1);
        SameSound(order, close, seen0, s, next);
        if Rejected(s, text, close) {
          GenerateIsSound(order, perLabel, texts, close, seen0, next);
        } else {
          KeptIsSound(order, close, seen0, next, template, text);
          GenerateIsSound(order, perLabel, texts, close, seen0, Kept(next, template, text));
        }
      } else {
        AllUsedUp(order, close, seen0, s);
      }
    }
  }

  lemma SameSound(order: seq<string>, close: string -> bool, seen0: set<string>, s: State, t: State)
    requires Sound(order, close, seen0, s) && t.notes == s.notes && t.seen == s.seen
    ensures Sound(order, close, seen0, t)
  {
  }

  /** Every position of the cycle comes up within one turn. */
  lemma TurnCoversAll(n: nat, cycle: nat, i: nat) returns (k: nat)
    requires i < n
    ensures cycle <= k < cycle + n && k % n == i
  {
    var q, r := cycle / n, cycle % n;
    k := if i >= r then n * q + i else n * (q + 1) + i;
    assert n * (q + 1) == n * q + n;
    SameRemainder(n, if i >= r then q else q + 1, i);
  }

  lemma MultipleIsFar(n: nat, k: int)
    ensures k >= 1 ==> n * k >= n
    ensures k <= -1 ==> n * k + n <= 0
  {
    if k >= 1 { assert n * (k - 1) >= 0; }
    if k <= -1 { assert n * (-k - 1) >= 0; }
  }

  lemma SameRemainder(n: nat, q: nat, i: nat)
    requires i < n
    ensures (n * q + i) % n == i && (n * q + i) / n == q
  {
    var x := n * q + i;
    var d, r := x / n, x % n;
    assert n * (d - q) == i - r;
    MultipleIsFar(n, d - q);
  }

  lemma AllUsedUp(order: seq<string>, close: string -> bool, seen0: set<string>, s: State)
    requires Sound(order, close, seen0, s)
    requires Pick(order, s.notes, s.cycle, |order|).None?
    ensures forall t :: t in order ==> Uses(s.notes, t) == MAX_USES_PER_TEMPLATE
  {
    PickIsUsable(order, s.notes, s.cycle, |order|);
    hide Uses, Pick;
    forall t | t in order ensures Uses(s.notes, t) == MAX_USES_PER_TEMPLATE {
      var i: nat :| i < |order| && order[i] == t;
      var k := TurnCoversAll(|order|, s.cycle, i);
      assert Uses(s.notes, order[k % |order|]) >= MAX_USES_PER_TEMPLATE;
    }
  }

  /**
    However candidates are rejected: no template is used more than three times, all texts are new,
    distinct and not too close; the split is full, or every template is used up, or all attempts are.
   */
  lemma SplitIsSound(order: seq<string>, perLabel: nat, texts: Texts, close: string -> bool, seen: set<string>)
    ensures var end := Generate(order, perLabel, texts, close, Start(seen));
            && Sound(order, close, seen, end.state) && |end.state.notes| <= perLabel
            && (end.Finished? ==> |end.state.notes| == perLabel)
            && (end.GaveUp? ==> end.state.attempts == perLabel * ATTEMPTS_PER_NOTE)
            && (end.Exhausted? ==> |end.state.notes| < perLabel
                                   && forall t :: t in order ==> Uses(end.state.notes, t) == MAX_USES_PER_TEMPLATE)
  {
    hide Generate;
    GenerateIsSound(order, perLabel, texts, close, seen, Start(seen));
  }

  // --- round robin ---

  predicate Distinct(order: seq<string>) {
    forall i: nat, j: nat :: i < j < |order| ==> order[i] != order[j]
  }

  /** No candidate is rejected on the way. */
  predicate Unrejected(order: seq<string>, perLabel: nat, texts: Texts, close: string -> bool, s: State)
    decreases perLabel * ATTEMPTS_PER_NOTE - s.attempts
  {
    |s.notes| >= perLabel || s.attempts >= perLabel * ATTEMPTS_PER_NOTE ||
    var pick := Pick(order, s.notes, s.cycle, |order|);
    pick.None? ||
    var template := order[pick.value % |order|];
    var text := texts(s.attempts, template);
    !Rejected(s, text, close)
    && Unrejected(order, perLabel, texts, close,
                  Kept(s.(cycle := pick.value + 1, attempts := s.attempts + 1), template, text))
  }

  /** The k-th note is from the k-th template, cycling. */
  predicate InTurn(order: seq<string>, notes: seq<Made>) {
    forall k: nat :: k < |notes| ==> order != [] && notes[k].template == order[k % |order|]
  }

  lemma NextRemainder(n: nat, p: nat)
    requires n > 0
    ensures if p % n + 1 == n then (p + 1) % n == 0 && (p + 1) / n == p / n + 1
            else (p + 1) % n == p % n + 1 && (p + 1) / n == p / n
  {
    var q, r := p / n, p % n;
    assert p == n * q + r;
    if r + 1 == n {
      assert p + 1 == n * (q + 1) + 0;
      SameRemainder(n, q + 1, 0);
    } else {
      assert p + 1 == n * q + (r + 1);
      SameRemainder(n, q, r + 1);
    }
  }

  lemma {:induction false} UsesInTurn(order: seq<string>, notes: seq<Made>, i: nat)
    requires order != [] && Distinct(order) && InTurn(order, notes) && i < |order|
    ensures Uses(notes, order[i]) == |notes| / |order| + if i < |notes| % |order| then 1 else 0
    decreases |notes|
  {
    var n := |order|;
    if notes == [] {
      SameRemainder(n, 0, 0);
    } else {
      var p := |notes| - 1;
      UsesInTurn(order, notes[..p], i);
      NextRemainder(n, p);
      assert notes[p].template == order[p % n];
      assert order[p % n] == order[i] <==> p % n == i;
    }
  }

  lemma PickInTurn(order: seq<string>, notes: seq<Made>)
    requires Distinct(order) && InTurn(order, notes)
    ensures var pick := Pick(order, notes, |notes|, |order|);
            pick.None? || pick == Some(|notes|)
  {
    var n, p := |order|, |notes|;
    PickIsUsable(order, notes, p, n);
    var pick := Pick(order, notes, p, n);
    if pick.Some? {
      UsesInTurn(order, notes, p % n);
      UsesInTurn(order, notes, pick.value % n);
    }
  }

  /**
    What the documentation promises, under the condition it leaves out: while no candidate is
    rejected the templates are used strictly in turn, so each once before any repeats.
   */
  lemma {:induction false} TemplatesTakeTurns(order: seq<string>, perLabel: nat, texts: Texts,
                                              close: string -> bool, s: State)
    requires Distinct(order) && InTurn(order, s.notes) && s.cycle == |s.notes|
    requires Unrejected(order, perLabel, texts, close, s)
    ensures InTurn(order, Generate(order, perLabel, texts, close, s).state.notes)
    decreases perLabel * ATTEMPTS_PER_NOTE - s.attempts
  {
    hide Pick;
    if |s.notes| < perLabel && s.attempts < perLabel * ATTEMPTS_PER_NOTE {
      PickInTurn(order, s.notes);
      var pick := Pick(order, s.notes, s.cycle, |order|);
      if pick.Some? {
        var template := order[pick.value % |order|];
        var text := texts(s.attempts, template);
        var next := Kept(s.(cycle := pick.value + 1, attempts := s.attempts + 1), template, text);
        TemplatesTakeTurns(order, perLabel, texts, close, next);
      }
    }
  }
}
