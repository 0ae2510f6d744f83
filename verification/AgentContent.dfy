/** What the model can and cannot change in an agent's result, and what it may cite. */
module AgentContent {
  import opened Basics
  import opened AgentRanking
  import opened AgentLoop

  // --- assumptions on tools ---

  /** Nothing is taken away or edited; findings, actions, evidence and warnings may be appended. */
  predicate Extends(a: Assessment, b: Assessment) {
    && b.summary == a.summary && b.metrics == a.metrics && b.dataQuality == a.dataQuality
    && a.findings <= b.findings && a.actions <= b.actions && a.evidence <= b.evidence && a.warnings <= b.warnings
  }

  ghost predicate Extending(w: World) {
    forall n, name, arguments, a ::
      var h := w.handle(n, name, arguments, a);
      !h.Crashed? ==> Extends(a, h.live)
  }

  ghost predicate Pure(w: World) {
    forall n, name, arguments, a ::
      var h := w.handle(n, name, arguments, a);
      !h.Crashed? ==> h.live == a
  }

  // --- the live assessment only grows, and a submission stays acceptable ---

  predicate Known(base: Assessment, loop: Loop) {
    loop.known == EvidenceIds(base.evidence) + EvidenceIds(loop.found)
  }

  /** Call `k` submitted `s` and was accepted; every later submission of the response was turned down. */
  predicate LastAccepted(w: World, calls: seq<Call>, results: seq<ToolMessage>, k: nat, s: Submission) {
    && |results| == |calls| && k < |calls|
    && calls[k].name == SUBMIT && w.parse(calls[k].arguments) == Some(s) && results[k].feedback.Accepted?
    && forall j: nat :: k < j < |calls| && calls[j].name == SUBMIT ==> results[j].feedback.Problems?
  }

  predicate NoneAccepted(calls: seq<Call>, results: seq<ToolMessage>) {
    |results| == |calls| && forall j: nat :: j < |calls| && calls[j].name == SUBMIT ==> results[j].feedback.Problems?
  }

  ghost predicate Taken(w: World, calls: seq<Call>, t: Turn) {
    if t.submitted.Some? then exists k: nat :: LastAccepted(w, calls, t.results, k, t.submitted.value)
    else NoneAccepted(calls, t.results)
  }

  /** What holds once the calls `done` of a response are handled. */
  ghost predicate TurnInv(w: World, base: Assessment, t: Turn, done: seq<Call>) {
    && Extends(base, t.loop.live) && Known(base, t.loop)
    && (t.submitted.Some? ==> Acceptable(t.submitted.value, t.loop.live, t.loop.known))
    && (!t.crashed ==> Taken(w, done, t))
  }

  lemma {:induction false} NovelIds(evidence: seq<Evidence>, known: set<string>)
    ensures known + EvidenceIds(Novel(evidence, known)) == known + EvidenceIds(evidence)
  {
    if evidence != [] {
      var e, rest := evidence[0], evidence[1..];
      assert evidence == [e] + rest;
      IdsOfTwo([e], rest);
      if e.id in known {
        NovelIds(rest, known);
      } else {
        NovelIds(rest, known + {e.id});
        IdsOfTwo([e], Novel(rest, known + {e.id}));
      }
    }
  }

  lemma IdsOfTwo(a: seq<Evidence>, b: seq<Evidence>)
    ensures EvidenceIds(a + b) == EvidenceIds(a) + EvidenceIds(b)
  {
    forall e | e in a ensures e.id in EvidenceIds(a + b) { assert e in a + b; }
    forall e | e in b ensures e.id in EvidenceIds(a + b) { assert e in a + b; }
  }

  lemma StaysAcceptable(s: Submission, a: Assessment, known: set<string>, b: Assessment, more: set<string>)
    requires Acceptable(s, a, known) && Extends(a, b) && known <= more
    ensures Acceptable(s, b, more)
  {
    forall x | x in a.actions ensures x.id in ActionIds(b.actions) { assert x in b.actions; }
    forall f | f in a.findings ensures f.id in FindingIds(b.findings) { assert f in b.findings; }
  }

  /** A call that is not an accepted submission leaves the one taken as it was. */
  lemma TakenStays(w: World, t: Turn, done: seq<Call>, call: Call, feedback: Feedback)
    requires Taken(w, done, t) && (call.name == SUBMIT ==> feedback.Problems?)
    ensures Taken(w, done + [call], Told(t, call, feedback))
  {
    var calls, results := done + [call], t.results + [ToolMessage(call.id, feedback)];
    if t.submitted.Some? {
      var k: nat :| LastAccepted(w, done, t.results, k, t.submitted.value);
      assert LastAccepted(w, calls, results, k, t.submitted.value);
    }
  }

  lemma TakenNow(w: World, t: Turn, done: seq<Call>, call: Call, s: Submission)
    requires |t.results| == |done| && call.name == SUBMIT && w.parse(call.arguments) == Some(s)
    ensures Taken(w, done + [call], Told(t, call, Accepted).(submitted := Some(s)))
  {
    assert LastAccepted(w, done + [call], t.results + [ToolMessage(call.id, Accepted)], |done|, s);
  }

  lemma TakenLength(w: World, t: Turn, done: seq<Call>)
    requires Taken(w, done, t)
    ensures |t.results| == |done|
  {
  }

  lemma TakenIgnores(w: World, t: Turn, u: Turn, done: seq<Call>)
    requires t.results == u.results && t.submitted == u.submitted
    ensures Taken(w, done, t) <==> Taken(w, done, u)
  {
  }

  lemma ToolTaken(w: World, limit: nat, t: Turn, done: seq<Call>, call: Call)
    requires Taken(w, done, t) && call.name != SUBMIT
    ensures var u := HandleTool(w, limit, t, call); !u.crashed ==> Taken(w, done + [call], u)
  {
    hide Taken, EvidenceIds, Novel;
    var u := HandleTool(w, limit, t, call);
    if |u.results| == |t.results| + 1 {
      var feedback := u.results[|t.results|].feedback;
      TakenStays(w, t, done, call, feedback);
      TakenIgnores(w, Told(t, call, feedback), u, done + [call]);
    }
  }

  lemma ToolContent(w: World, limit: nat, base: Assessment, t: Turn, call: Call)
    requires Extending(w) && Extends(base, t.loop.live) && Known(base, t.loop)
    requires t.submitted.Some? ==> Acceptable(t.submitted.value, t.loop.live, t.loop.known)
    ensures var u := HandleTool(w, limit, t, call);
            && Extends(base, u.loop.live) && Known(base, u.loop)
            && (u.submitted.Some? ==> Acceptable(u.submitted.value, u.loop.live, u.loop.known))
  {
    hide Acceptable, EvidenceIds, Novel, Extends;
    var u := HandleTool(w, limit, t, call);
    var h := w.handle(|t.loop.usage.toolCalls|, call.name, call.arguments, t.loop.live);
    if !h.Crashed? { ExtendsChain(base, t.loop.live, h.live); }
    if h.Gave? {
      NovelIds(h.evidence, t.loop.known);
      IdsOfTwo(t.loop.found, Novel(h.evidence, t.loop.known));
    }
    if t.submitted.Some? && !h.Crashed? && u.loop != t.loop {
      StaysAcceptable(t.submitted.value, t.loop.live, t.loop.known, u.loop.live, u.loop.known);
    }
  }

  lemma ExtendsChain(a: Assessment, b: Assessment, c: Assessment)
    requires Extends(a, b) && Extends(b, c)
    ensures Extends(a, c)
  {
  }

  lemma CallContent(w: World, limit: nat, base: Assessment, t: Turn, done: seq<Call>, call: Call)
    requires Extending(w) && TurnInv(w, base, t, done) && !t.crashed
    ensures TurnInv(w, base, HandleCall(w, limit, t, call), done + [call])
  {
    hide Extending, Acceptable, EvidenceIds, HandleTool, Taken, Extends;
    if call.name != SUBMIT {
      ToolContent(w, limit, base, t, call);
      ToolTaken(w, limit, t, done, call);
    } else {
      var parsed := Validated(w, call.arguments, t.loop.live, t.loop.known);
      if parsed.Some? {
        TakenLength(w, t, done);
        TakenNow(w, t, done, call, parsed.value);
      } else {
        TakenStays(w, t, done, call, Problems);
        TakenIgnores(w, Told(t, call, Problems), Told(t, call, Problems).(rejected := true), done + [call]);
      }
    }
  }

  lemma {:induction false} CallsContent(w: World, limit: nat, base: Assessment, t: Turn, done: seq<Call>,
                                        calls: seq<Call>)
    requires Extending(w) && TurnInv(w, base, t, done)
    ensures var u := HandleCalls(w, limit, t, calls);
            if u.crashed then Extends(base, u.loop.live) && Known(base, u.loop) else TurnInv(w, base, u, done + calls)
    decreases |calls|
  {
    hide HandleCall, Taken, Extends, Known, Acceptable;
    if calls == [] {
      assert done + calls == done;
    } else if !t.crashed {
      CallContent(w, limit, base, t, done, calls[0]);
      CallsContent(w, limit, base, HandleCall(w, limit, t, calls[0]), done + [calls[0]], calls[1..]);
      assert (done + [calls[0]]) + calls[1..] == done + calls;
    }
  }

  /** Turn `i` ended the run with the merge of `s`, the last submission its response had accepted. */
  ghost predicate SubmittedAt(w: World, limit: nat, base: Assessment, i: nat, p: Progress, s: Submission) {
    && w.reply(i).Response? && LoopAt(w, limit, Fresh(base), i).Some?
    && var t := TurnOf(w, limit, i, LoopAt(w, limit, Fresh(base), i).value);
       && p == Ended(Succeeded(Merged(t.loop.live, s, t.loop.found), t.loop.usage), t.loop)
       && (exists k: nat :: LastAccepted(w, w.reply(i).calls, t.results, k, s))
       && Acceptable(s, t.loop.live, t.loop.known)
  }

  /** Where a result comes from, and that the assessment it is made of extends the base. */
  ghost predicate FromBase(w: World, limit: nat, base: Assessment, p: Progress) {
    && Extends(base, p.loop.live) && Known(base, p.loop)
    && (p.Ended? && p.outcome.Succeeded? ==> exists i: nat, s :: SubmittedAt(w, limit, base, i, p, s))
    && (p.Ended? && p.outcome.Degraded? ==>
          p.outcome.assessment == p.loop.live.(warnings := p.loop.live.warnings + [WarningText(p.outcome.reason)]))
  }

  /** A response that did not crash a handler. */
  lemma ResponseRound(w: World, limit: nat, base: Assessment, i: nat, loop: Loop)
    requires Extending(w) && Extends(base, loop.live) && Known(base, loop)
    requires LoopAt(w, limit, Fresh(base), i) == Some(loop)
    requires w.remaining(i) > 0.0 && w.reserved(i) && w.reply(i).Response? && w.reply(i).calls != []
    ensures FromBase(w, limit, base, Round(w, limit, i, loop))
  {
    hide Extending, Acceptable, EvidenceIds, HandleCalls, Merged, WarningText, LoopAt, Extends;
    var asked := loop.(trace := loop.trace + [Reserving(true)] + [Asking(w.reply(i))]);
    var t, u := Turn(Counted(asked, w.reply(i)), [], None, false, false), TurnOf(w, limit, i, loop);
    assert Round(w, limit, i, loop) == AfterCalls(u);
    CallsContent(w, limit, base, t, [], w.reply(i).calls);
    assert [] + w.reply(i).calls == w.reply(i).calls;
    if !u.crashed && u.submitted.Some? {
      assert Taken(w, w.reply(i).calls, u);
      assert SubmittedAt(w, limit, base, i, AfterCalls(u), u.submitted.value);
    }
  }

  lemma RoundContent(w: World, limit: nat, base: Assessment, i: nat, loop: Loop)
    requires Extending(w) && Extends(base, loop.live) && Known(base, loop)
    requires LoopAt(w, limit, Fresh(base), i) == Some(loop)
    ensures FromBase(w, limit, base, Round(w, limit, i, loop))
  {
    if w.remaining(i) > 0.0 && w.reserved(i) && w.reply(i).Response? && w.reply(i).calls != [] {
      ResponseRound(w, limit, base, i, loop);
    } else {
      hide Extending, Extends, EvidenceIds, HandleCalls, WarningText, LoopAt, SubmittedAt;
      assert Round(w, limit, i, loop).loop.live == loop.live;
    }
  }

  lemma {:induction false} RoundsContent(w: World, limit: nat, base: Assessment, i: nat, loop: Loop)
    requires Extending(w) && Extends(base, loop.live) && Known(base, loop)
    requires LoopAt(w, limit, Fresh(base), i) == Some(loop)
    ensures FromBase(w, limit, base, Rounds(w, limit, i, loop))
    decreases Turns(limit) - i
  {
    hide Extending, Extends, Round, EvidenceIds, SubmittedAt, WarningText;
    if i < Turns(limit) {
      RoundContent(w, limit, base, i, loop);
      var next := Round(w, limit, i, loop);
      if next.Going? { RoundsContent(w, limit, base, i + 1, next.loop); }
    }
  }

  lemma ResultIsFromBase(w: World, base: Assessment, maxToolCalls: int)
    requires Extending(w)
    ensures FromBase(w, ToolLimit(maxToolCalls), base, RunOf(w, base, maxToolCalls))
  {
    assert EvidenceIds([]) == {} by { NoIds(); }
    RoundsContent(w, ToolLimit(maxToolCalls), base, 0, Fresh(base));
  }

  // --- deterministic content is kept ---

  /** The deterministic part of a result is that of `live`; what is added to it is marked as the model's. */
  predicate Keeps(live: Assessment, a: Assessment) {
    && a.metrics == live.metrics && a.dataQuality == live.dataQuality
    && Bag(a.actions) == Bag(live.actions)
    && live.evidence <= a.evidence && live.warnings <= a.warnings
    && live.findings <= a.findings
    && forall i: nat :: |live.findings| <= i < |a.findings| ==> a.findings[i].source == Model
  }

  lemma AddedByModel(s: Submission, i: nat)
    requires i < |NoteFindings(s.notes) + RationaleFindings(s)|
    ensures (NoteFindings(s.notes) + RationaleFindings(s))[i].source == Model
  {
  }

  lemma MergeKeeps(live: Assessment, s: Submission, found: seq<Evidence>)
    ensures Keeps(live, Merged(live, s, found))
  {
    hide Bag, Reranked, NoteFindings, RationaleFindings, RevisionWarnings;
    var added := NoteFindings(s.notes) + RationaleFindings(s);
    var a := Merged(live, s, found);
    RerankKeepsActions(live.actions, s.selected);
    assert a.findings == live.findings + added;
    forall i: nat | |live.findings| <= i < |a.findings| ensures a.findings[i].source == Model {
      AddedByModel(s, i - |live.findings|);
      assert a.findings[i] == added[i - |live.findings|];
    }
  }

  /** Every result keeps the metrics, findings, evidence, warnings and actions as the tools left them. */
  lemma {:induction false} DeterministicContentIsKept(w: World, base: Assessment, maxToolCalls: int)
    requires Extending(w)
    ensures var end := RunOf(w, base, maxToolCalls);
            && Extends(base, end.loop.live)
            && (end.outcome.Succeeded? || end.outcome.Degraded? ==> Keeps(end.loop.live, end.outcome.assessment))
            && (end.outcome.Degraded? ==>
                  end.outcome.assessment ==
                  end.loop.live.(warnings := end.loop.live.warnings + [WarningText(end.outcome.reason)]))
  {
    hide Merged, Acceptable, WarningText;
    ResultIsFromBase(w, base, maxToolCalls);
    var end := RunOf(w, base, maxToolCalls);
    if end.outcome.Succeeded? {
      var i: nat, s :| SubmittedAt(w, ToolLimit(maxToolCalls), base, i, end, s);
      MergeKeeps(end.loop.live, s, end.loop.found);
    }
  }

  lemma {:induction false} CallsPure(w: World, limit: nat, base: Assessment, t: Turn, calls: seq<Call>)
    requires Pure(w) && t.loop.live == base
    ensures HandleCalls(w, limit, t, calls).loop.live == base
    decreases |calls|
  {
    hide Validated, Novel;
    if calls != [] && !t.crashed {
      assert HandleCall(w, limit, t, calls[0]).loop.live == base;
      CallsPure(w, limit, base, HandleCall(w, limit, t, calls[0]), calls[1..]);
    }
  }

  lemma {:induction false} RoundsPure(w: World, limit: nat, base: Assessment, i: nat, loop: Loop)
    requires Pure(w) && loop.live == base
    ensures Rounds(w, limit, i, loop).loop.live == base
    decreases Turns(limit) - i
  {
    hide Merged, HandleCalls;
    if i < Turns(limit) {
      if w.remaining(i) > 0.0 && w.reserved(i) && w.reply(i).Response? {
        var asked := loop.(trace := loop.trace + [Reserving(true)] + [Asking(w.reply(i))]);
        CallsPure(w, limit, base, Turn(Counted(asked, w.reply(i)), [], None, false, false), w.reply(i).calls);
      }
      var next := Round(w, limit, i, loop);
      assert next.loop.live == base;
      if next.Going? { RoundsPure(w, limit, base, i + 1, next.loop); }
    }
  }

  /**
    Noninterference. Two runs of one agent that differ in everything the model, the budget, the
    clock and the (pure) tools do, and in the tool limit, end with the same metrics, the same
    deterministic findings, evidence and warnings, and the same actions with the same payloads.
   */
  lemma ModelCannotInterfere(w1: World, w2: World, base: Assessment, max1: int, max2: int)
    requires Pure(w1) && Pure(w2)
    requires !RunOf(w1, base, max1).outcome.Raised? && !RunOf(w2, base, max2).outcome.Raised?
    ensures var a, b := RunOf(w1, base, max1).outcome.assessment, RunOf(w2, base, max2).outcome.assessment;
            && a.metrics == b.metrics && a.dataQuality == b.dataQuality
            && Bag(a.actions) == Bag(b.actions) && |a.actions| == |b.actions| == |base.actions|
            && |base.findings| <= |a.findings| && |base.findings| <= |b.findings|
            && a.findings[..|base.findings|] == b.findings[..|base.findings|] == base.findings
            && (forall i: nat :: |base.findings| <= i < |a.findings| ==> a.findings[i].source == Model)
            && (forall i: nat :: |base.findings| <= i < |b.findings| ==> b.findings[i].source == Model)
            && base.evidence <= a.evidence && base.evidence <= b.evidence
            && base.warnings <= a.warnings && base.warnings <= b.warnings
  {
    hide RunOf, Bag, Pure;
    KeepsBase(w1, base, max1);
    KeepsBase(w2, base, max2);
  }

  lemma KeepsBase(w: World, base: Assessment, maxToolCalls: int)
    requires Pure(w) && !RunOf(w, base, maxToolCalls).outcome.Raised?
    ensures Keeps(base, RunOf(w, base, maxToolCalls).outcome.assessment)
    ensures |RunOf(w, base, maxToolCalls).outcome.assessment.actions| == |base.actions|
  {
    hide Rounds, Bag;
    BagSize(base.actions);
    BagSize(RunOf(w, base, maxToolCalls).outcome.assessment.actions);
    assert Extending(w);
    DeterministicContentIsKept(w, base, maxToolCalls);
    RoundsPure(w, ToolLimit(maxToolCalls), base, 0, Fresh(base));
  }

  lemma {:induction false} BagSize(actions: seq<Action>)
    ensures |Bag(actions)| == |actions|
  {
    if actions != [] { BagSize(actions[1..]); }
  }

  // --- what a success selects, ranks and cites ---

  /**
    A success is the merge of the submission the provider's last turn had accepted last; the
    selected action comes first, the others follow in their stable rank order, ranks run from 0;
    and every finding added cites evidence the result declares.
   */
  lemma SuccessIsGrounded(w: World, base: Assessment, maxToolCalls: int) returns (i: nat, s: Submission)
    requires Extending(w) && RunOf(w, base, maxToolCalls).outcome.Succeeded?
    ensures var end := RunOf(w, base, maxToolCalls);
            var a, live := end.outcome.assessment, end.loop.live;
            && SubmittedAt(w, ToolLimit(maxToolCalls), base, i, end, s)
            && RankedAs(live.actions, s.selected, a.actions)
            && (s.selected.Some? ==> a.actions != [] && a.actions[0].id == s.selected.value)
            && forall f: nat :: |live.findings| <= f < |a.findings| ==>
                 AllIn(a.findings[f].evidenceIds, EvidenceIds(a.evidence))
  {
    hide Merged, Acceptable, WarningText, EvidenceIds, RunOf, RankedAs, Extends;
    ResultIsFromBase(w, base, maxToolCalls);
    var end := RunOf(w, base, maxToolCalls);
    var live := end.loop.live;
    i, s :| SubmittedAt(w, ToolLimit(maxToolCalls), base, i, end, s);
    IdsOfTwo(live.evidence, end.loop.found);
    BaseIds(base, live);
    MergeCites(live, s, end.loop.found, end.loop.known);
    MergeSelects(live, s, end.loop.found, end.loop.known);
  }

  lemma BaseIds(base: Assessment, live: Assessment)
    requires Extends(base, live)
    ensures EvidenceIds(base.evidence) <= EvidenceIds(live.evidence)
  {
    forall e | e in base.evidence ensures e.id in EvidenceIds(live.evidence) { assert e in live.evidence; }
  }

  lemma MergeCites(live: Assessment, s: Submission, found: seq<Evidence>, known: set<string>)
    requires Acceptable(s, live, known) && known <= EvidenceIds(live.evidence + found)
    ensures var a := Merged(live, s, found);
            forall i: nat :: |live.findings| <= i < |a.findings| ==>
              AllIn(a.findings[i].evidenceIds, EvidenceIds(a.evidence))
  {
    hide EvidenceIds, ActionIds, FindingIds, Reranked;
    var a, notes := Merged(live, s, found), NoteFindings(s.notes);
    forall i: nat | |live.findings| <= i < |a.findings|
      ensures AllIn(a.findings[i].evidenceIds, EvidenceIds(a.evidence))
    {
      var k := i - |live.findings|;
      if k < |notes| {
        assert a.findings[i] == notes[k];
        assert s.notes[k] in s.notes;
      } else {
        assert a.findings[i] == RationaleFindings(s)[k - |notes|];
      }
    }
  }

  lemma MergeSelects(live: Assessment, s: Submission, found: seq<Evidence>, known: set<string>)
    requires Acceptable(s, live, known)
    ensures var a := Merged(live, s, found);
            && RankedAs(live.actions, s.selected, a.actions)
            && (s.selected.Some? ==> a.actions != [] && a.actions[0].id == s.selected.value)
  {
    hide SortByRank, Having, Lacking, Reranked;
    RerankOrders(live.actions, s.selected);
    if s.selected.Some? {
      var x :| x in live.actions && x.id == s.selected.value;
    }
  }
}
