/**
  What every turn of the loop comes to: which submissions are accepted, which tools are run, when
  the model may repair its answer, and how a run ends.
 */
module AgentDecisions {
  import opened Basics
  import opened AgentRanking
  import opened AgentLoop

  // --- the calls of a response, one by one ---

  lemma {:induction false} OneMoreCall(w: World, limit: nat, t: Turn, calls: seq<Call>, call: Call)
    ensures HandleCalls(w, limit, t, calls + [call]) ==
            var u := HandleCalls(w, limit, t, calls);
            if u.crashed then u else HandleCall(w, limit, u, call)
    decreases |calls|
  {
    hide HandleCall;
    if calls == [] {
      assert ([] + [call])[1..] == [];
    } else if !t.crashed {
      assert (calls + [call])[1..] == calls[1..] + [call];
      OneMoreCall(w, limit, HandleCall(w, limit, t, calls[0]), calls[1..], call);
    }
  }

  lemma OneResult(w: World, limit: nat, t: Turn, call: Call)
    requires !t.crashed
    ensures var u := HandleCall(w, limit, t, call);
            if u.crashed then u.results == t.results
            else |u.results| == |t.results| + 1 && t.results <= u.results
                 && u.results[|t.results|].callId == call.id
  {
    hide Validated, Novel, EvidenceIds;
  }

  /** While no handler crashes there is one result per call, each as the call was answered when its turn came. */
  lemma {:induction false} ResultsInOrder(w: World, limit: nat, t: Turn, calls: seq<Call>)
    requires !t.crashed && t.results == []
    ensures var u := HandleCalls(w, limit, t, calls);
            && (!u.crashed ==> |u.results| == |calls|)
            && |u.results| <= |calls|
            && forall k: nat :: k < |u.results| ==>
                 var before := HandleCalls(w, limit, t, calls[..k]);
                 && !before.crashed && |before.results| == k
                 && !HandleCall(w, limit, before, calls[k]).crashed
                 && k < |HandleCall(w, limit, before, calls[k]).results|
                 && u.results[k] == HandleCall(w, limit, before, calls[k]).results[k]
    decreases |calls|
  {
    hide HandleCall, HandleCalls;
    if calls == [] {
      NoCalls(w, limit, t);
    } else {
      var n := |calls| - 1;
      var past, u := HandleCalls(w, limit, t, calls[..n]), HandleCalls(w, limit, t, calls);
      ResultsInOrder(w, limit, t, calls[..n]);
      OneMoreCall(w, limit, t, calls[..n], calls[n]);
      assert calls[..n] + [calls[n]] == calls;
      if !past.crashed { OneResult(w, limit, past, calls[n]); }
      forall k: nat | k < |u.results|
        ensures var before := HandleCalls(w, limit, t, calls[..k]);
                && !before.crashed && |before.results| == k
                && !HandleCall(w, limit, before, calls[k]).crashed
                && k < |HandleCall(w, limit, before, calls[k]).results|
                && u.results[k] == HandleCall(w, limit, before, calls[k]).results[k]
      {
        if k < |past.results| { assert calls[..n][..k] == calls[..k]; }
      }
    }
  }

  lemma NoCalls(w: World, limit: nat, t: Turn)
    ensures HandleCalls(w, limit, t, []) == t
  {
  }

  // --- turns the run gets to ---

  /** The run gets as far as handling the calls of turn `i`'s response, from `loop`. */
  predicate Responds(w: World, base: Assessment, maxToolCalls: int, i: nat, loop: Loop) {
    && i < ToolLimit(maxToolCalls) + 3 && LoopAt(w, ToolLimit(maxToolCalls), Fresh(base), i) == Some(loop)
    && w.remaining(i) > 0.0 && w.reserved(i) && w.reply(i).Response?
  }

  /** What has come of the first `k` calls of turn `i`'s response. */
  function Before(w: World, maxToolCalls: int, i: nat, loop: Loop, k: nat): Turn
    requires w.reply(i).Response? && k <= |w.reply(i).calls|
  {
    var asked := loop.(trace := loop.trace + [Reserving(true)] + [Asking(w.reply(i))]);
    HandleCalls(w, ToolLimit(maxToolCalls), Turn(Counted(asked, w.reply(i)), [], None, false, false),
                w.reply(i).calls[..k])
  }

  lemma TurnsInOrder(w: World, base: Assessment, maxToolCalls: int, i: nat, loop: Loop, k: nat)
    requires Responds(w, base, maxToolCalls, i, loop)
    ensures var t := TurnOf(w, ToolLimit(maxToolCalls), i, loop);
            && |t.results| <= |w.reply(i).calls| && (!t.crashed ==> |t.results| == |w.reply(i).calls|)
            && (k < |t.results| ==>
                  var before := Before(w, maxToolCalls, i, loop, k);
                  var u := HandleCall(w, ToolLimit(maxToolCalls), before, w.reply(i).calls[k]);
                  && !before.crashed && |before.results| == k && !u.crashed && k < |u.results|
                  && t.results[k] == u.results[k] && u == Before(w, maxToolCalls, i, loop, k + 1))
  {
    hide HandleCall, HandleCalls;
    var asked := loop.(trace := loop.trace + [Reserving(true)] + [Asking(w.reply(i))]);
    var start, calls := Turn(Counted(asked, w.reply(i)), [], None, false, false), w.reply(i).calls;
    ResultsInOrder(w, ToolLimit(maxToolCalls), start, calls);
    if k < |TurnOf(w, ToolLimit(maxToolCalls), i, loop).results| {
      OneMoreCall(w, ToolLimit(maxToolCalls), start, calls[..k], calls[k]);
      assert calls[..k] + [calls[k]] == calls[..k + 1];
    }
  }

  // --- submissions ---

  /**
    A good answer: well-formed, selecting nothing or one of the actions there are, and citing, in
    itself and in its notes on findings there are, evidence that is available.
   */
  ghost predicate GoodAnswer(w: World, arguments: string, live: Assessment, available: set<string>) {
    && w.parse(arguments).Some?
    && var s := w.parse(arguments).value;
       && (s.selected.None? || exists a :: a in live.actions && s.selected == Some(a.id))
       && (forall id :: id in s.cited ==> id in available)
       && (forall n :: n in s.notes ==> exists f :: f in live.findings && f.id == n.findingId)
       && (forall n, id :: n in s.notes && id in n.evidenceIds ==> id in available)
  }

  lemma GoodIsValidated(w: World, arguments: string, live: Assessment, known: set<string>)
    ensures Validated(w, arguments, live, known).Some? <==> GoodAnswer(w, arguments, live, known)
  {
    if w.parse(arguments).Some? {
      var s := w.parse(arguments).value;
      assert s.selected.Some? ==>
          (s.selected.value in ActionIds(live.actions) <==> exists a :: a in live.actions && s.selected == Some(a.id));
      forall n | n in s.notes
        ensures n.findingId in FindingIds(live.findings) <==> exists f :: f in live.findings && f.id == n.findingId
      {
      }
    }
  }

  /** A submission is accepted exactly when it is a good answer at that point of the turn. */
  lemma SubmissionsAreJudged(w: World, base: Assessment, maxToolCalls: int, i: nat, loop: Loop, k: nat)
    requires Responds(w, base, maxToolCalls, i, loop)
    requires k < |TurnOf(w, ToolLimit(maxToolCalls), i, loop).results| && k < |w.reply(i).calls|
    requires w.reply(i).calls[k].name == SUBMIT
    ensures var t, call := TurnOf(w, ToolLimit(maxToolCalls), i, loop), w.reply(i).calls[k];
            var before := Before(w, maxToolCalls, i, loop, k).loop;
            t.results[k] == ToolMessage(call.id, if GoodAnswer(w, call.arguments, before.live, before.known)
                                                 then Accepted else Problems)
  {
    hide TurnOf, Before, GoodAnswer, LoopAt;
    TurnsInOrder(w, base, maxToolCalls, i, loop, k);
    var before := Before(w, maxToolCalls, i, loop, k).loop;
    GoodIsValidated(w, w.reply(i).calls[k].arguments, before.live, before.known);
    hide Validated;
  }

  // --- tools ---

  /**
    What one call of a tool is answered, and what it changes: unknown tools and bad arguments cost
    nothing; no more than `max_tool_calls` handlers, and four, are run; one that runs leaves its
    assessment and counts, whether it objected or gave evidence, which becomes available.
   */
  lemma ToolsAreRun(w: World, base: Assessment, maxToolCalls: int, i: nat, loop: Loop, k: nat)
    requires Responds(w, base, maxToolCalls, i, loop)
    requires k < |TurnOf(w, ToolLimit(maxToolCalls), i, loop).results| && k < |w.reply(i).calls|
    requires w.reply(i).calls[k].name != SUBMIT
    ensures var t, call := TurnOf(w, ToolLimit(maxToolCalls), i, loop), w.reply(i).calls[k];
            var before, after := Before(w, maxToolCalls, i, loop, k).loop, Before(w, maxToolCalls, i, loop, k + 1).loop;
            var done := before.usage.toolCalls;
            && t.results[k].callId == call.id
            && var feedback := t.results[k].feedback;
               if call.name !in w.tools then feedback == UnknownTool && after == before
               else if !w.valid(call.name, call.arguments) then feedback == BadArguments && after == before
               else if |done| >= maxToolCalls || |done| >= 4 then feedback == LimitReached && after == before
               else
                 && after.usage == before.usage.(toolCalls := done + [call.name]) && after.repairs == before.repairs
                 && match w.handle(|done|, call.name, call.arguments, before.live)
                    case Crashed => false
                    case Objected(message, live) =>
                      feedback == ToolProblem(message) && after.live == live
                      && (after.known, after.found) == (before.known, before.found)
                    case Gave(evidence, data, live) =>
                      feedback == ToolData(data) && after.live == live
                      && after.known == before.known + EvidenceIds(evidence)
                      && after.found == before.found + Novel(evidence, before.known)
  {
    hide TurnOf, Before, LoopAt, Novel, EvidenceIds;
    TurnsInOrder(w, base, maxToolCalls, i, loop, k);
  }

  // --- how a turn ends ---

  predicate SomeAccepted(calls: seq<Call>, results: seq<ToolMessage>) {
    exists k: nat :: k < |calls| && k < |results| && calls[k].name == SUBMIT && results[k].feedback.Accepted?
  }

  predicate SomeSubmitted(calls: seq<Call>) {
    exists k: nat :: k < |calls| && calls[k].name == SUBMIT
  }

  lemma {:induction false} SubmittedIsAccepted(w: World, limit: nat, t: Turn, calls: seq<Call>)
    requires !t.crashed && t.results == [] && t.submitted.None? && !t.rejected
    ensures var u := HandleCalls(w, limit, t, calls);
            !u.crashed ==>
              && |u.results| == |calls|
              && (u.submitted.Some? <==> SomeAccepted(calls, u.results))
              && (u.rejected && u.submitted.None? <==> SomeSubmitted(calls) && u.submitted.None?)
              && u.loop.repairs == t.loop.repairs
    decreases |calls|
  {
    hide HandleCall, HandleCalls;
    if calls == [] {
      NoCalls(w, limit, t);
    } else {
      var n := |calls| - 1;
      var past, u := HandleCalls(w, limit, t, calls[..n]), HandleCalls(w, limit, t, calls);
      SubmittedIsAccepted(w, limit, t, calls[..n]);
      OneMoreCall(w, limit, t, calls[..n], calls[n]);
      assert calls[..n] + [calls[n]] == calls;
      if !past.crashed && !u.crashed {
        OneResult(w, limit, past, calls[n]);
        OneSubmission(w, limit, past, calls[n]);
        assert SomeSubmitted(calls) <==> SomeSubmitted(calls[..n]) || calls[n].name == SUBMIT;
        AcceptedOneMore(calls, past.results, u.results);
      }
    }
  }

  lemma AcceptedOneMore(calls: seq<Call>, before: seq<ToolMessage>, after: seq<ToolMessage>)
    requires calls != [] && |after| == |calls| && before == after[..|after| - 1]
    ensures var n := |calls| - 1;
            SomeAccepted(calls, after) <==>
            SomeAccepted(calls[..n], before) || (calls[n].name == SUBMIT && after[n].feedback.Accepted?)
  {
    var n := |calls| - 1;
    if SomeAccepted(calls[..n], before) {
      var k: nat :| k < n && calls[..n][k].name == SUBMIT && before[k].feedback.Accepted?;
      assert calls[k].name == SUBMIT && after[k].feedback.Accepted?;
    }
  }

  lemma OneSubmission(w: World, limit: nat, t: Turn, call: Call)
    ensures var u := HandleCall(w, limit, t, call);
            && u.loop.repairs == t.loop.repairs
            && if call.name != SUBMIT then u.submitted == t.submitted && u.rejected == t.rejected
               else
                 && |u.results| == |t.results| + 1
                 && if u.results[|t.results|].feedback.Accepted? then u.submitted.Some? && u.rejected == t.rejected
                    else u.submitted == t.submitted && u.rejected
  {
    hide Validated, Novel, EvidenceIds;
  }

  // --- how a run ends ---

  lemma {:induction false} RunFollowsTurns(w: World, base: Assessment, maxToolCalls: int, i: nat)
    requires LoopAt(w, ToolLimit(maxToolCalls), Fresh(base), i).Some? && i <= ToolLimit(maxToolCalls) + 3
    ensures RunOf(w, base, maxToolCalls) ==
            Rounds(w, ToolLimit(maxToolCalls), i, LoopAt(w, ToolLimit(maxToolCalls), Fresh(base), i).value)
  {
    hide Round;
    if i > 0 { RunFollowsTurns(w, base, maxToolCalls, i - 1); }
  }

  function Explained(reason: Reason): string {
    match reason
    case BudgetExceeded => AI_UNAVAILABLE + " (model call budget exhausted)"
    case InvalidOutput => AI_UNAVAILABLE + " (the model's output was rejected)"
    case LlmRefusal => AI_UNAVAILABLE + " (" + "LLM_REFUSAL" + ")"
    case LlmInvalidResponse => AI_UNAVAILABLE + " (" + "LLM_INVALID_RESPONSE" + ")"
    case LlmDisabled => AI_UNAVAILABLE + " (" + "LLM_DISABLED" + ")"
  }

  lemma WarningExplains(reason: Reason)
    ensures WarningText(reason) == Explained(reason)
  {
  }

  /** The deterministic result with one warning more. */
  predicate DegradedFor(outcome: Outcome, live: Assessment, reason: Reason) {
    outcome.Degraded? && outcome.reason == reason
    && outcome.assessment == live.(warnings := live.warnings + [Explained(reason)])
  }

  /** The run goes on to another turn after this one, with so many repairs used. */
  predicate GoesOn(w: World, base: Assessment, maxToolCalls: int, i: nat, repairs: nat) {
    var next := LoopAt(w, ToolLimit(maxToolCalls), Fresh(base), i + 1);
    next.Some? && next.value.repairs == repairs
  }

  /** An answer that is none: the first one may be repaired, the second ends the run. */
  predicate NoAnswer(w: World, base: Assessment, maxToolCalls: int, i: nat, repairs: nat, live: Assessment) {
    if repairs == 0 then GoesOn(w, base, maxToolCalls, i, 1)
    else DegradedFor(RunOf(w, base, maxToolCalls).outcome, live, InvalidOutput)
  }

  /**
    What every turn the run gets to comes to. Deadline and budget come first; a failed provider
    call, a crashed handler and an accepted submission end the run; without an accepted one, a
    response that submits or calls nothing is repaired once; tool calls alone go on.
   */
  lemma TurnsDecide(w: World, base: Assessment, maxToolCalls: int, i: nat)
    requires i < ToolLimit(maxToolCalls) + 3 && LoopAt(w, ToolLimit(maxToolCalls), Fresh(base), i).Some?
    ensures var loop := LoopAt(w, ToolLimit(maxToolCalls), Fresh(base), i).value;
            var outcome := RunOf(w, base, maxToolCalls).outcome;
            if w.remaining(i) <= 0.0 then outcome == Raised(DeadlineExceeded)
            else if !w.reserved(i) then DegradedFor(outcome, loop.live, BudgetExceeded)
            else
              match w.reply(i)
              case Unavailable => outcome == Raised(ProviderUnavailable)
              case Refusal => DegradedFor(outcome, loop.live, LlmRefusal)
              case InvalidResponse => DegradedFor(outcome, loop.live, LlmInvalidResponse)
              case Disabled => DegradedFor(outcome, loop.live, LlmDisabled)
              case Response(calls, _, _) =>
                var t := TurnOf(w, ToolLimit(maxToolCalls), i, loop);
                if t.crashed then outcome == Raised(HandlerCrashed)
                else if SomeAccepted(calls, t.results) then outcome.Succeeded?
                else if calls == [] || SomeSubmitted(calls) then
                  NoAnswer(w, base, maxToolCalls, i, loop.repairs, t.loop.live)
                else GoesOn(w, base, maxToolCalls, i, loop.repairs)
  {
    hide LoopAt, HandleCalls, Merged, EvidenceIds, WarningText, Explained;
    forall reason ensures WarningText(reason) == Explained(reason) { WarningExplains(reason); }
    RunFollowsTurns(w, base, maxToolCalls, i);
    LoopAfter(w, base, maxToolCalls, i);
    if w.reply(i).Response? {
      var loop := LoopAt(w, ToolLimit(maxToolCalls), Fresh(base), i).value;
      var asked := loop.(trace := loop.trace + [Reserving(true)] + [Asking(w.reply(i))]);
      var start := Turn(Counted(asked, w.reply(i)), [], None, false, false);
      SubmittedIsAccepted(w, ToolLimit(maxToolCalls), start, w.reply(i).calls);
      if w.reply(i).calls == [] { NoCalls(w, ToolLimit(maxToolCalls), start); }
    }
  }

  lemma LoopAfter(w: World, base: Assessment, maxToolCalls: int, i: nat)
    requires LoopAt(w, ToolLimit(maxToolCalls), Fresh(base), i).Some?
    ensures var next := Round(w, ToolLimit(maxToolCalls), i, LoopAt(w, ToolLimit(maxToolCalls), Fresh(base), i).value);
            LoopAt(w, ToolLimit(maxToolCalls), Fresh(base), i + 1) == if next.Going? then Some(next.loop) else None
  {
    hide Round;
  }

  /** Out of turns: after as many as tool calls are allowed and three more. */
  lemma TurnsRunOut(w: World, base: Assessment, maxToolCalls: int)
    requires LoopAt(w, ToolLimit(maxToolCalls), Fresh(base), ToolLimit(maxToolCalls) + 3).Some?
    ensures var loop := LoopAt(w, ToolLimit(maxToolCalls), Fresh(base), ToolLimit(maxToolCalls) + 3).value;
            DegradedFor(RunOf(w, base, maxToolCalls).outcome, loop.live, InvalidOutput)
  {
    hide LoopAt, EvidenceIds, WarningText, Explained;
    WarningExplains(InvalidOutput);
    RunFollowsTurns(w, base, maxToolCalls, ToolLimit(maxToolCalls) + 3);
  }

  // --- what a submission adds ---

  /**
    A merge takes the submission's summary, appends the evidence tools gave, a finding per note in
    order, one for a rationale of a selected action, and a warning for a revision note; it adds
    nothing else and leaves metrics and data quality alone.
   */
  lemma MergeAddsExactly(live: Assessment, s: Submission, found: seq<Evidence>)
    ensures var a, n := Merged(live, s, found), |live.findings|;
            var reasons := s.rationale.Some? && s.rationale.value != "" && s.selected.Some? && s.selected.value != "";
            && a.summary == s.summary && a.metrics == live.metrics && a.dataQuality == live.dataQuality
            && a.evidence == live.evidence + found
            && live.findings <= a.findings
            && |a.findings| == n + |s.notes| + (if reasons then 1 else 0)
            && (forall k: nat :: k < |s.notes| ==>
                  && a.findings[n + k].id == "model-note-" + Digits(k + 1)
                  && a.findings[n + k].message == "Note on " + s.notes[k].findingId + ": " + s.notes[k].note
                  && a.findings[n + k].evidenceIds == s.notes[k].evidenceIds && a.findings[n + k].source == Model)
            && (reasons ==>
                  && a.findings[n + |s.notes|].id == "model-action-rationale"
                  && a.findings[n + |s.notes|].message == "Rationale for " + s.selected.value + ": " + s.rationale.value
                  && a.findings[n + |s.notes|].evidenceIds == s.cited && a.findings[n + |s.notes|].source == Model)
            && a.warnings == live.warnings + if s.revision.Some? && s.revision.value != ""
                                             then ["Revision: " + s.revision.value] else []
  {
    hide Reranked, Digits;
    var notes := NoteFindings(s.notes);
    assert Merged(live, s, found).findings == live.findings + (notes + RationaleFindings(s));
  }
}
