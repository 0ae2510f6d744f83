/**
  The evidence rules a result is validated by: every evidence id is declared once, and every
  finding and action cites only declared evidence. Which tools make every result satisfy them.
 */
module AgentEvidence {
  import opened Basics
  import opened AgentRanking
  import opened AgentLoop
  import opened AgentContent

  predicate CitesWithin(a: Assessment, ids: set<string>) {
    && (forall f :: f in a.findings ==> AllIn(f.evidenceIds, ids))
    && (forall x :: x in a.actions ==> AllIn(x.evidenceIds, ids))
  }

  predicate DeclaredOnce(evidence: seq<Evidence>) {
    forall i: nat, j: nat :: i < j < |evidence| ==> evidence[i].id != evidence[j].id
  }

  predicate EvidenceRules(a: Assessment) {
    DeclaredOnce(a.evidence) && CitesWithin(a, EvidenceIds(a.evidence))
  }

  /** What one handler may do: append findings and actions that cite within `ids`. */
  predicate Appends(a: Assessment, b: Assessment, ids: set<string>) {
    && Extends(a, b) && b.evidence == a.evidence
    && (forall f :: f in b.findings ==> f in a.findings || AllIn(f.evidenceIds, ids))
    && (forall x :: x in b.actions ==> x in a.actions || AllIn(x.evidenceIds, ids))
  }

  /**
    Tools leave the declared evidence alone, and what they append cites it or, unless they are
    cautious, the evidence they return.
   */
  ghost predicate Citing(w: World, cautious: bool) {
    forall n, name, arguments, a ::
      match w.handle(n, name, arguments, a)
      case Crashed => true
      case Objected(_, live) => Appends(a, live, EvidenceIds(a.evidence))
      case Gave(evidence, _, live) =>
        Appends(a, live, EvidenceIds(a.evidence) + if cautious then {} else EvidenceIds(evidence))
  }

  function Citable(base: Assessment, loop: Loop, cautious: bool): set<string> {
    if cautious then EvidenceIds(base.evidence) else loop.known
  }

  /** Evidence declared once and, with what the tools returned, known; citations within what is citable. */
  predicate EvidenceInv(base: Assessment, loop: Loop, cautious: bool) {
    && loop.live.evidence == base.evidence
    && DeclaredOnce(base.evidence + loop.found) && loop.known == EvidenceIds(base.evidence + loop.found)
    && CitesWithin(loop.live, Citable(base, loop, cautious))
  }

  lemma {:induction false} NovelIsNew(evidence: seq<Evidence>, known: set<string>)
    ensures forall e :: e in Novel(evidence, known) ==> e.id !in known
    ensures DeclaredOnce(Novel(evidence, known))
  {
    if evidence != [] {
      if evidence[0].id in known {
        NovelIsNew(evidence[1..], known);
      } else {
        var rest := Novel(evidence[1..], known + {evidence[0].id});
        NovelIsNew(evidence[1..], known + {evidence[0].id});
        forall i: nat, j: nat | i < j < |rest| + 1
            ensures ([evidence[0]] + rest)[i].id != ([evidence[0]] + rest)[j].id {
          assert rest[j - 1] in rest;
          assert i > 0 ==> ([evidence[0]] + rest)[i] == rest[i - 1];
        }
      }
    }
  }

  lemma DeclaredTogether(a: seq<Evidence>, b: seq<Evidence>)
    requires DeclaredOnce(a) && DeclaredOnce(b)
    requires forall e :: e in b ==> e.id !in EvidenceIds(a)
    ensures DeclaredOnce(a + b)
  {
    forall i: nat, j: nat | i < j < |a + b| ensures (a + b)[i].id != (a + b)[j].id {
      if i < |a| <= j {
        assert b[j - |a|] in b;
        assert a[i] in a;
        assert a[i].id in EvidenceIds(a);
      }
    }
  }

  lemma CitesMore(a: Assessment, b: Assessment, ids: set<string>, more: set<string>, wider: set<string>)
    requires CitesWithin(a, ids) && Appends(a, b, more) && ids <= wider && more <= wider
    ensures CitesWithin(b, wider)
  {
  }

  lemma ToolEvidence(w: World, limit: nat, base: Assessment, t: Turn, call: Call, cautious: bool)
    requires Citing(w, cautious) && EvidenceInv(base, t.loop, cautious)
    ensures EvidenceInv(base, HandleTool(w, limit, t, call).loop, cautious)
  {
    hide EvidenceIds, Novel, DeclaredOnce, CitesWithin, Appends;
    var u, ids := HandleTool(w, limit, t, call).loop, Citable(base, t.loop, cautious);
    var h := w.handle(|t.loop.usage.toolCalls|, call.name, call.arguments, t.loop.live);
    IdsOfTwo(base.evidence, t.loop.found);
    if u.live == t.loop.live && u.known == t.loop.known && u.found == t.loop.found {
    } else if h.Objected? {
      SameEvidence(t.loop.live, h.live, EvidenceIds(base.evidence));
      CitesMore(t.loop.live, h.live, ids, EvidenceIds(base.evidence), ids);
    } else if h.Gave? {
      var novel := Novel(h.evidence, t.loop.known);
      var more := EvidenceIds(base.evidence) + if cautious then {} else EvidenceIds(h.evidence);
      SameEvidence(t.loop.live, h.live, more);
      NovelIds(h.evidence, t.loop.known);
      NovelIsNew(h.evidence, t.loop.known);
      DeclaredTogether(base.evidence + t.loop.found, novel);
      IdsOfTwo(base.evidence + t.loop.found, novel);
      assert base.evidence + u.found == (base.evidence + t.loop.found) + novel;
      CitesMore(t.loop.live, h.live, ids, more, Citable(base, u, cautious));
    }
  }

  lemma SameEvidence(a: Assessment, b: Assessment, ids: set<string>)
    requires Appends(a, b, ids)
    ensures b.evidence == a.evidence
  {
  }

  lemma {:induction false} CallsEvidence(w: World, limit: nat, base: Assessment, t: Turn, calls: seq<Call>,
                                         cautious: bool)
    requires Citing(w, cautious) && EvidenceInv(base, t.loop, cautious)
    ensures EvidenceInv(base, HandleCalls(w, limit, t, calls).loop, cautious)
    decreases |calls|
  {
    hide Citing, EvidenceInv, HandleTool, Validated;
    if calls != [] && !t.crashed {
      if calls[0].name != SUBMIT { ToolEvidence(w, limit, base, t, calls[0], cautious); }
      var u := HandleCall(w, limit, t, calls[0]);
      SameLoop(base, t.loop, u.loop, cautious);
      CallsEvidence(w, limit, base, u, calls[1..], cautious);
    }
  }

  lemma SameLoop(base: Assessment, a: Loop, b: Loop, cautious: bool)
    requires EvidenceInv(base, a, cautious)
    ensures a.live == b.live && a.known == b.known && a.found == b.found ==> EvidenceInv(base, b, cautious)
  {
  }

  lemma RoundEvidence(w: World, limit: nat, base: Assessment, i: nat, loop: Loop, cautious: bool)
    requires Citing(w, cautious) && EvidenceInv(base, loop, cautious)
    ensures EvidenceInv(base, Round(w, limit, i, loop).loop, cautious)
  {
    hide Citing, EvidenceInv, HandleCalls, Merged, WarningText;
    var next := Round(w, limit, i, loop);
    if w.remaining(i) > 0.0 && w.reserved(i) && w.reply(i).Response? && w.reply(i).calls != [] {
      var asked := loop.(trace := loop.trace + [Reserving(true)] + [Asking(w.reply(i))]);
      var t := Turn(Counted(asked, w.reply(i)), [], None, false, false);
      SameLoop(base, loop, t.loop, cautious);
      CallsEvidence(w, limit, base, t, w.reply(i).calls, cautious);
      SameLoop(base, HandleCalls(w, limit, t, w.reply(i).calls).loop, next.loop, cautious);
    } else {
      SameLoop(base, loop, next.loop, cautious);
    }
  }

  lemma {:induction false} RoundsEvidence(w: World, limit: nat, base: Assessment, i: nat, loop: Loop, cautious: bool)
    requires Citing(w, cautious) && EvidenceInv(base, loop, cautious)
    ensures EvidenceInv(base, Rounds(w, limit, i, loop).loop, cautious)
    decreases Turns(limit) - i
  {
    hide Citing, EvidenceInv, Round;
    if i < Turns(limit) {
      RoundEvidence(w, limit, base, i, loop, cautious);
      var next := Round(w, limit, i, loop);
      if next.Going? { RoundsEvidence(w, limit, base, i + 1, next.loop, cautious); }
    }
  }

  lemma {:induction false} BagMember(actions: seq<Action>, x: Action)
    ensures x in Bag(actions) <==> exists a :: a in actions && a.(rank := 0) == x
  {
    if actions != [] {
      BagMember(actions[1..], x);
      assert forall a :: a in actions <==> a == actions[0] || a in actions[1..];
    }
  }

  lemma MergeCitesWithin(live: Assessment, s: Submission, found: seq<Evidence>, known: set<string>)
    requires Acceptable(s, live, known) && CitesWithin(live, known) && known == EvidenceIds(live.evidence + found)
    ensures CitesWithin(Merged(live, s, found), known)
  {
    var a := Merged(live, s, found);
    MergeCites(live, s, found, known);
    hide EvidenceIds, Bag, Reranked, NoteFindings, RationaleFindings;
    forall f | f in a.findings ensures AllIn(f.evidenceIds, known) {
      var i: nat :| i < |a.findings| && a.findings[i] == f;
      if i < |live.findings| { assert f == live.findings[i]; }
    }
    RerankKeepsActions(live.actions, s.selected);
    forall x | x in a.actions ensures AllIn(x.evidenceIds, known) {
      BagMember(a.actions, x.(rank := 0));
      BagMember(live.actions, x.(rank := 0));
    }
  }

  lemma CitingExtends(w: World, cautious: bool)
    requires Citing(w, cautious)
    ensures Extending(w)
  {
    forall n, name, arguments, a
      ensures var h := w.handle(n, name, arguments, a); !h.Crashed? ==> Extends(a, h.live)
    {
      var h := w.handle(n, name, arguments, a);
      if h.Gave? {
        assert Appends(a, h.live, EvidenceIds(a.evidence) + if cautious then {} else EvidenceIds(h.evidence));
      }
    }
  }

  /**
    With tools that cite only what is declared or what they return, every success keeps the
    evidence rules; a degraded result drops tool evidence, and keeps the rules exactly when the
    live assessment does without it, as it always does with cautious tools.
   */
  lemma ResultsKeepEvidenceRules(w: World, base: Assessment, maxToolCalls: int, cautious: bool)
    requires Citing(w, cautious) && EvidenceRules(base)
    ensures var end := RunOf(w, base, maxToolCalls);
            && (end.outcome.Succeeded? ==> EvidenceRules(end.outcome.assessment))
            && (end.outcome.Degraded? ==>
                  (EvidenceRules(end.outcome.assessment) <==> CitesWithin(end.loop.live, EvidenceIds(base.evidence))))
            && (end.outcome.Degraded? && cautious ==> EvidenceRules(end.outcome.assessment))
  {
    hide Citing, Rounds, EvidenceIds, Merged, CitesWithin, Acceptable;
    var end := RunOf(w, base, maxToolCalls);
    CitingExtends(w, cautious);
    ResultIsFromBase(w, base, maxToolCalls);
    assert base.evidence + [] == base.evidence;
    RoundsEvidence(w, ToolLimit(maxToolCalls), base, 0, Fresh(base), cautious);
    assert DeclaredOnce(base.evidence);
    if end.outcome.Succeeded? {
      var i: nat, s :| SubmittedAt(w, ToolLimit(maxToolCalls), base, i, end, s);
      IdsOfTwo(base.evidence, end.loop.found);
      if cautious { WiderCites(end.loop.live, EvidenceIds(base.evidence), end.loop.known); }
      MergeCitesWithin(end.loop.live, s, end.loop.found, end.loop.known);
      MergedEvidence(end.loop.live, s, end.loop.found);
    } else if end.outcome.Degraded? {
      SameCites(end.loop.live, end.outcome.assessment, EvidenceIds(base.evidence));
    }
  }

  lemma WiderCites(a: Assessment, ids: set<string>, wider: set<string>)
    requires CitesWithin(a, ids) && ids <= wider
    ensures CitesWithin(a, wider)
  {
  }

  lemma MergedEvidence(live: Assessment, s: Submission, found: seq<Evidence>)
    ensures Merged(live, s, found).evidence == live.evidence + found
  {
  }

  lemma SameCites(a: Assessment, b: Assessment, ids: set<string>)
    requires a.findings == b.findings && a.actions == b.actions
    ensures CitesWithin(a, ids) <==> CitesWithin(b, ids)
  {
  }

  // --- exactly which handlers degrade within the rules ---

  /** The same tools, checks and handlers; provider, budget and clock may be any. */
  ghost predicate SameAgent(w: World, v: World) {
    v.tools == w.tools && v.valid == w.valid && v.handle == w.handle && v.parse == w.parse
  }

  /** Handlers that do not depend on how often tools were called. */
  ghost predicate Timeless(w: World) {
    forall n: nat, name, arguments, a :: w.handle(n, name, arguments, a) == w.handle(0, name, arguments, a)
  }

  predicate CanBeCalled(w: World, name: string, arguments: string) {
    name != SUBMIT && name in w.tools && w.valid(name, arguments)
  }

  /** The call leaves the assessment with a citation of something it does not declare. */
  predicate Oversteps(w: World, name: string, arguments: string, a: Assessment) {
    var h := w.handle(0, name, arguments, a);
    !h.Crashed? && !CitesWithin(h.live, EvidenceIds(a.evidence))
  }

  ghost predicate NeverOversteps(w: World) {
    forall name, arguments, a ::
      CanBeCalled(w, name, arguments) && EvidenceRules(a) ==> !Oversteps(w, name, arguments, a)
  }

  /** Whatever the provider, the budget and the clock do, every degraded result keeps the rules. */
  ghost predicate DegradesWithinRules(w: World) {
    forall v: World, base, max: int ::
      SameAgent(w, v) && EvidenceRules(base) && RunOf(v, base, max).outcome.Degraded? ==>
        EvidenceRules(RunOf(v, base, max).outcome.assessment)
  }

  lemma ToolWithinRules(w: World, limit: nat, t: Turn, call: Call)
    requires Citing(w, false) && Timeless(w) && NeverOversteps(w) && EvidenceRules(t.loop.live) && call.name != SUBMIT
    ensures EvidenceRules(HandleTool(w, limit, t, call).loop.live)
  {
    hide Novel, EvidenceIds, DeclaredOnce, CitesWithin;
    var h := w.handle(|t.loop.usage.toolCalls|, call.name, call.arguments, t.loop.live);
    if CanBeCalled(w, call.name, call.arguments) && !h.Crashed? {
      assert h == w.handle(0, call.name, call.arguments, t.loop.live);
      assert !Oversteps(w, call.name, call.arguments, t.loop.live);
      assert h.live.evidence == t.loop.live.evidence;
    }
  }

  lemma {:induction false} CallsWithinRules(w: World, limit: nat, t: Turn, calls: seq<Call>)
    requires Citing(w, false) && Timeless(w) && NeverOversteps(w) && EvidenceRules(t.loop.live)
    ensures EvidenceRules(HandleCalls(w, limit, t, calls).loop.live)
    decreases |calls|
  {
    hide Citing, Timeless, NeverOversteps, EvidenceRules, HandleTool, Validated;
    if calls != [] && !t.crashed {
      if calls[0].name != SUBMIT { ToolWithinRules(w, limit, t, calls[0]); }
      CallsWithinRules(w, limit, HandleCall(w, limit, t, calls[0]), calls[1..]);
    }
  }

  lemma {:induction false} RoundsWithinRules(w: World, limit: nat, i: nat, loop: Loop)
    requires Citing(w, false) && Timeless(w) && NeverOversteps(w) && EvidenceRules(loop.live)
    ensures EvidenceRules(Rounds(w, limit, i, loop).loop.live)
    decreases Turns(limit) - i
  {
    hide Citing, Timeless, NeverOversteps, EvidenceRules, HandleCalls, Merged, WarningText;
    if i < Turns(limit) {
      if w.remaining(i) > 0.0 && w.reserved(i) && w.reply(i).Response? {
        var asked := loop.(trace := loop.trace + [Reserving(true)] + [Asking(w.reply(i))]);
        CallsWithinRules(w, limit, Turn(Counted(asked, w.reply(i)), [], None, false, false), w.reply(i).calls);
      }
      var next := Round(w, limit, i, loop);
      assert EvidenceRules(next.loop.live);
      if next.Going? { RoundsWithinRules(w, limit, i + 1, next.loop); }
    }
  }

  /** A provider that makes one tool call and then refuses. */
  function CallThenRefuse(w: World, name: string, arguments: string): World {
    w.(remaining := (i: nat) => 1.0, reserved := (i: nat) => true,
       reply := (i: nat) => if i == 0 then Response([Call("c", name, arguments)], 0, 0) else Refusal)
  }

  /**
    Every handler that oversteps, be it once: against a provider that makes that call and then
    refuses, the result is degraded and cites what it does not declare.
   */
  lemma DegradedMayCiteNothing(w: World, name: string, arguments: string, a: Assessment)
    requires CanBeCalled(w, name, arguments) && Oversteps(w, name, arguments, a) && Citing(w, false)
    ensures var outcome := RunOf(CallThenRefuse(w, name, arguments), a, 1).outcome;
            outcome.Degraded? && !CitesWithin(outcome.assessment, EvidenceIds(outcome.assessment.evidence))
  {
    var v, call := CallThenRefuse(w, name, arguments), Call("c", name, arguments);
    var h := w.handle(0, name, arguments, a);
    FirstTurn(v, a, call);
    hide EvidenceIds, Citing, HandleCalls, Oversteps;
    var next := LoopAt(v, 1, Fresh(a), 1).value;
    assert Round(v, 1, 0, Fresh(a)) == Going(next);
    assert Rounds(v, 1, 0, Fresh(a)) == Rounds(v, 1, 1, next);
    assert Rounds(v, 1, 1, next) == Round(v, 1, 1, next);
    var b := RunOf(v, a, 1).outcome.assessment;
    assert b == h.live.(warnings := h.live.warnings + [WarningText(LlmRefusal)]);
    SameCites(h.live, b, EvidenceIds(a.evidence));
    assert h.live.evidence == a.evidence by { SameDeclared(w, name, arguments, a); }
  }

  lemma SameDeclared(w: World, name: string, arguments: string, a: Assessment)
    requires Citing(w, false)
    ensures var h := w.handle(0, name, arguments, a); !h.Crashed? ==> h.live.evidence == a.evidence
  {
    hide EvidenceIds;
  }

  /** The one tool call is carried out and the loop goes on. */
  lemma FirstTurn(v: World, a: Assessment, call: Call)
    requires v.remaining(0) > 0.0 && v.reserved(0) && v.reply(0) == Response([call], 0, 0)
    requires CanBeCalled(v, call.name, call.arguments) && !v.handle(0, call.name, call.arguments, a).Crashed?
    ensures var at := LoopAt(v, 1, Fresh(a), 1);
            at.Some? && at.value.live == v.handle(0, call.name, call.arguments, a).live
  {
    hide EvidenceIds, Novel;
    var loop := Fresh(a);
    var asked := loop.(trace := loop.trace + [Reserving(true)] + [Asking(v.reply(0))]);
    var t := Turn(Counted(asked, v.reply(0)), [], None, false, false);
    var u := HandleCall(v, 1, t, call);
    assert HandleCalls(v, 1, t, [call]) == HandleCalls(v, 1, u, [call][1..]) == u;
    assert Round(v, 1, 0, loop) == AfterCalls(u);
    assert LoopAt(v, 1, loop, 0) == Some(loop);
  }

  /**
    A timeless agent whose tools cite what is declared or what they return: all its degraded
    results keep the evidence rules if and only if no call it can make, on any assessment that
    keeps them, appends a citation of anything else than what that assessment declares.
   */
  lemma DegradesWithinRulesExactly(w: World)
    requires Citing(w, false) && Timeless(w)
    ensures DegradesWithinRules(w) <==> NeverOversteps(w)
  {
    hide RunOf, EvidenceRules, Oversteps, Citing, Timeless;
    if NeverOversteps(w) {
      forall v: World, base, max: int | SameAgent(w, v) && EvidenceRules(base) && RunOf(v, base, max).outcome.Degraded?
        ensures EvidenceRules(RunOf(v, base, max).outcome.assessment)
      {
        SameAgentAlike(w, v);
        DegradedWithinRules(v, base, max);
      }
    } else {
      var name, arguments, a :|
        CanBeCalled(w, name, arguments) && EvidenceRules(a) && Oversteps(w, name, arguments, a);
      DegradedMayCiteNothing(w, name, arguments, a);
      var v := CallThenRefuse(w, name, arguments);
      assert SameAgent(w, v);
      NotWithinRules(RunOf(v, a, 1).outcome.assessment);
    }
  }

  lemma NotWithinRules(a: Assessment)
    requires !CitesWithin(a, EvidenceIds(a.evidence))
    ensures !EvidenceRules(a)
  {
  }

  lemma SameAgentAlike(w: World, v: World)
    requires SameAgent(w, v) && Citing(w, false) && Timeless(w) && NeverOversteps(w)
    ensures Citing(v, false) && Timeless(v) && NeverOversteps(v)
  {
    hide Appends, EvidenceIds, EvidenceRules, CitesWithin;
    forall name, arguments, a | CanBeCalled(v, name, arguments) && EvidenceRules(a)
      ensures !Oversteps(v, name, arguments, a)
    {
      assert CanBeCalled(w, name, arguments) && !Oversteps(w, name, arguments, a);
    }
  }

  lemma DegradedWithinRules(v: World, base: Assessment, max: int)
    requires Citing(v, false) && Timeless(v) && NeverOversteps(v) && EvidenceRules(base)
    requires RunOf(v, base, max).outcome.Degraded?
    ensures EvidenceRules(RunOf(v, base, max).outcome.assessment)
  {
    hide Citing, Timeless, NeverOversteps, CitesWithin, DeclaredOnce, EvidenceIds, Rounds, WarningText;
    RoundsWithinRules(v, ToolLimit(max), 0, Fresh(base));
    CitingExtends(v, false);
    ResultIsFromBase(v, base, max);
    var live, a := RunOf(v, base, max).loop.live, RunOf(v, base, max).outcome.assessment;
    SameCites(live, a, EvidenceIds(live.evidence));
  }
}
