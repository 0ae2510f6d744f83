/**
  The bounded model loop of an agent: at most four tool calls, one repair, a fixed number of
  turns, and an answer that may only select, cite and comment.
 */
module AgentLoop {
  import opened Basics
  import opened AgentRanking

  const MAX_TOOL_CALLS: int := 4
  const MAX_REPAIR_CALLS: nat := 1
  const SUBMIT := "submit_assessment"
  const AI_UNAVAILABLE := "AI explanation unavailable"

  datatype Note = Note(findingId: string, note: string, evidenceIds: seq<string>)

  datatype Submission = Submission(
    summary: string,
    selected: Option<string>,
    rationale: Option<string>,
    notes: seq<Note>,
    revision: Option<string>,
    cited: seq<string>)

  datatype Call = Call(id: string, name: string, arguments: string)

  /** What a provider call comes to. */
  datatype Reply =
    | Unavailable                 // also rate limited
    | Refusal
    | InvalidResponse
    | Disabled
    | Response(calls: seq<Call>, inputTokens: nat, outputTokens: nat)

  /** What a tool handler comes to; it may have changed the live assessment, unless it crashed. */
  datatype Handled =
    | Gave(evidence: seq<Evidence>, data: string, live: Assessment)
    | Objected(message: string, live: Assessment)
    | Crashed

  /**
    Everything the loop does not decide: the seconds left and the budget at turn `i`, the reply of
    the provider at turn `i` (any sequence whatsoever), what the agent's tools accept and do
    (`handle(n, ...)` is the n-th invocation), and which submissions are well-formed.
   */
  datatype World = World(
    remaining: nat -> real,
    reserved: nat -> bool,
    reply: nat -> Reply,
    tools: set<string>,
    valid: (string, string) -> bool,
    handle: (nat, string, string, Assessment) -> Handled,
    parse: string -> Option<Submission>)

  // --- what the model is told ---

  datatype Feedback =
    | Accepted
    | Problems
    | UnknownTool
    | BadArguments
    | LimitReached
    | ToolProblem(message: string)
    | ToolData(data: string)

  datatype ToolMessage = ToolMessage(callId: string, feedback: Feedback)

  datatype Message =
    | Context
    | Assistant(calls: seq<Call>)
    | NoToolCall
    | Results(results: seq<ToolMessage>)

  // --- what happened, and what is reported ---

  datatype Event =
    | Reserving(granted: bool)
    | Asking(reply: Reply)
    | Handling(tool: string, crashed: bool)
    | Repairing

  datatype Usage = Usage(modelCalls: nat, inputTokens: nat, outputTokens: nat, toolCalls: seq<string>)

  const UNUSED := Usage(0, 0, 0, [])

  /** The loop's variables. */
  datatype Loop = Loop(
    live: Assessment,
    known: set<string>,            // keys of evidence_by_id
    found: seq<Evidence>,          // tool_evidence
    repairs: nat,
    usage: Usage,
    messages: seq<Message>,
    trace: seq<Event>)

  datatype Reason = BudgetExceeded | InvalidOutput | LlmRefusal | LlmInvalidResponse | LlmDisabled

  datatype Error = DeadlineExceeded | ProviderUnavailable | HandlerCrashed

  datatype Outcome =
    | Raised(error: Error)
    | Succeeded(assessment: Assessment, usage: Usage)
    | Degraded(assessment: Assessment, usage: Usage, reason: Reason)

  function ReasonText(reason: Reason): string {
    match reason
    case BudgetExceeded => "BUDGET_EXCEEDED"
    case InvalidOutput => "INVALID_AGENT_OUTPUT"
    case LlmRefusal => "LLM_REFUSAL"
    case LlmInvalidResponse => "LLM_INVALID_RESPONSE"
    case LlmDisabled => "LLM_DISABLED"
  }

  function WarningText(reason: Reason): string {
    match reason
    case BudgetExceeded => AI_UNAVAILABLE + " (model call budget exhausted)"
    case InvalidOutput => AI_UNAVAILABLE + " (the model's output was rejected)"
    case _ => AI_UNAVAILABLE + " (" + ReasonText(reason) + ")"
  }

  // --- checking and merging a submission ---

  function FindingIds(findings: seq<Finding>): set<string> {
    set f | f in findings :: f.id
  }

  function ActionIds(actions: seq<Action>): set<string> {
    set a | a in actions :: a.id
  }

  function EvidenceIds(evidence: seq<Evidence>): set<string> {
    set e | e in evidence :: e.id
  }

  predicate AllIn(ids: seq<string>, known: set<string>) {
    forall id :: id in ids ==> id in known
  }

  predicate Acceptable(s: Submission, live: Assessment, known: set<string>) {
    && (s.selected.Some? ==> s.selected.value in ActionIds(live.actions))
    && AllIn(s.cited, known)
    && forall n :: n in s.notes ==> n.findingId in FindingIds(live.findings) && AllIn(n.evidenceIds, known)
  }

  function Validated(w: World, arguments: string, live: Assessment, known: set<string>): Option<Submission> {
    var parsed := w.parse(arguments);
    if parsed.Some? && Acceptable(parsed.value, live, known) then parsed else None
  }

  predicate Truthy(text: Option<string>) {
    text.Some? && text.value != ""
  }

  function NoteFindings(notes: seq<Note>): seq<Finding> {
    seq(|notes|, i requires 0 <= i < |notes| =>
      Finding("model-note-" + Digits(i + 1), "Note on " + notes[i].findingId + ": " + notes[i].note,
              notes[i].evidenceIds, Model))
  }

  function RationaleFindings(s: Submission): seq<Finding> {
    if Truthy(s.rationale) && Truthy(s.selected) then
      var message := "Rationale for " + s.selected.value + ": " + s.rationale.value;
      [Finding("model-action-rationale", message, s.cited, Model)]
    else []
  }

  function RevisionWarnings(s: Submission): seq<string> {
    if Truthy(s.revision) then ["Revision: " + s.revision.value] else []
  }

  function Merged(live: Assessment, s: Submission, found: seq<Evidence>): Assessment {
    live.(summary := s.summary,
          evidence := live.evidence + found,
          actions := Reranked(live.actions, s.selected),
          findings := live.findings + NoteFindings(s.notes) + RationaleFindings(s),
          warnings := live.warnings + RevisionWarnings(s))
  }

  function Degrade(live: Assessment, usage: Usage, reason: Reason): Outcome {
    Degraded(live.(warnings := live.warnings + [WarningText(reason)]), usage, reason)
  }

  function DegradedOutcome(loop: Loop, reason: Reason): Outcome {
    Degrade(loop.live, loop.usage, reason)
  }

  // --- one response ---

  /** The state while the calls of one response are handled. */
  datatype Turn = Turn(loop: Loop, results: seq<ToolMessage>, submitted: Option<Submission>, rejected: bool,
                       crashed: bool)

  function Told(t: Turn, call: Call, feedback: Feedback): Turn {
    t.(results := t.results + [ToolMessage(call.id, feedback)])
  }

  /** Evidence with new ids, in order. */
  function Novel(evidence: seq<Evidence>, known: set<string>): seq<Evidence> {
    if evidence == [] then []
    else if evidence[0].id in known then Novel(evidence[1..], known)
    else [evidence[0]] + Novel(evidence[1..], known + {evidence[0].id})
  }

  function Called(loop: Loop, tool: string, live: Assessment): Loop {
    loop.(live := live,
          usage := loop.usage.(toolCalls := loop.usage.toolCalls + [tool]),
          trace := loop.trace + [Handling(tool, false)])
  }

  function HandleSubmit(w: World, t: Turn, call: Call): Turn {
    var parsed := Validated(w, call.arguments, t.loop.live, t.loop.known);
    if parsed.Some? then Told(t, call, Accepted).(submitted := parsed)
    else Told(t, call, Problems).(rejected := true)
  }

  function HandleTool(w: World, limit: nat, t: Turn, call: Call): Turn {
    if call.name !in w.tools then Told(t, call, UnknownTool)
    else if !w.valid(call.name, call.arguments) then Told(t, call, BadArguments)
    else if |t.loop.usage.toolCalls| >= limit then Told(t, call, LimitReached)
    else
      match w.handle(|t.loop.usage.toolCalls|, call.name, call.arguments, t.loop.live)
      case Crashed => t.(loop := t.loop.(trace := t.loop.trace + [Handling(call.name, true)]), crashed := true)
      case Objected(message, live) => Told(t.(loop := Called(t.loop, call.name, live)), call, ToolProblem(message))
      case Gave(evidence, data, live) =>
        var loop := Called(t.loop, call.name, live);
        Told(t.(loop := loop.(known := loop.known + EvidenceIds(evidence),
                              found := loop.found + Novel(evidence, loop.known))), call, ToolData(data))
  }

  function HandleCall(w: World, limit: nat, t: Turn, call: Call): Turn {
    if call.name == SUBMIT then HandleSubmit(w, t, call) else HandleTool(w, limit, t, call)
  }

  function HandleCalls(w: World, limit: nat, t: Turn, calls: seq<Call>): Turn
    decreases |calls|
  {
    if calls == [] || t.crashed then t else HandleCalls(w, limit, HandleCall(w, limit, t, calls[0]), calls[1..])
  }

  // --- the turns ---

  datatype Progress = Going(loop: Loop) | Ended(outcome: Outcome, loop: Loop)

  function Counted(loop: Loop, reply: Reply): Loop
    requires reply.Response?
  {
    loop.(usage := loop.usage.(modelCalls := loop.usage.modelCalls + 1,
                               inputTokens := loop.usage.inputTokens + reply.inputTokens,
                               outputTokens := loop.usage.outputTokens + reply.outputTokens),
          messages := loop.messages + [Assistant(reply.calls)])
  }

  /** One more turn for the model to repair its answer, if it has one left. */
  function Repaired(loop: Loop, message: Message): Progress {
    if loop.repairs >= MAX_REPAIR_CALLS then Ended(DegradedOutcome(loop, InvalidOutput), loop)
    else Going(loop.(repairs := loop.repairs + 1, messages := loop.messages + [message],
        trace := loop.trace + [Repairing]))
  }

  function AfterCalls(t: Turn): Progress {
    if t.crashed then Ended(Raised(HandlerCrashed), t.loop)
    else if t.submitted.Some? then
      Ended(Succeeded(Merged(t.loop.live, t.submitted.value, t.loop.found), t.loop.usage), t.loop)
    else if t.rejected then Repaired(t.loop, Results(t.results))
    else Going(t.loop.(messages := t.loop.messages + [Results(t.results)]))
  }

  /** The provider raised instead of responding. */
  function FailedCall(live: Assessment, usage: Usage, reply: Reply): Outcome
    requires !reply.Response?
  {
    match reply
    case Unavailable => Raised(ProviderUnavailable)
    case Refusal => Degrade(live, usage, LlmRefusal)
    case InvalidResponse => Degrade(live, usage, LlmInvalidResponse)
    case Disabled => Degrade(live, usage, LlmDisabled)
  }

  function AfterReply(w: World, limit: nat, loop: Loop, reply: Reply): Progress {
    if !reply.Response? then Ended(FailedCall(loop.live, loop.usage, reply), loop)
    else
      var counted := Counted(loop, reply);
      if reply.calls == [] then Repaired(counted, NoToolCall)
      else AfterCalls(HandleCalls(w, limit, Turn(counted, [], None, false, false), reply.calls))
  }

  lemma FailedEnds(w: World, limit: nat, loop: Loop, reply: Reply)
    requires !reply.Response?
    ensures AfterReply(w, limit, loop, reply) == Ended(FailedCall(loop.live, loop.usage, reply), loop)
  {
  }

  function Round(w: World, limit: nat, i: nat, loop: Loop): Progress {
    if w.remaining(i) <= 0.0 then Ended(Raised(DeadlineExceeded), loop)
    else
      var asked := loop.(trace := loop.trace + [Reserving(w.reserved(i))]);
      if !w.reserved(i) then Ended(DegradedOutcome(asked, BudgetExceeded), asked)
      else AfterReply(w, limit, asked.(trace := asked.trace + [Asking(w.reply(i))]), w.reply(i))
  }

  /** The calls of turn `i`'s response, all handled. */
  function TurnOf(w: World, limit: nat, i: nat, loop: Loop): Turn
    requires w.reply(i).Response?
  {
    var asked := loop.(trace := loop.trace + [Reserving(true)] + [Asking(w.reply(i))]);
    HandleCalls(w, limit, Turn(Counted(asked, w.reply(i)), [], None, false, false), w.reply(i).calls)
  }

  /** The loop before turn `i`, when it gets that far. */
  function LoopAt(w: World, limit: nat, loop: Loop, i: nat): Option<Loop> {
    if i == 0 then Some(loop)
    else
      var before := LoopAt(w, limit, loop, i - 1);
      if before.None? then None
      else
        var next := Round(w, limit, i - 1, before.value);
        if next.Going? then Some(next.loop) else None
  }

  function ToolLimit(maxToolCalls: int): nat {
    Max(0, Min(MAX_TOOL_CALLS, maxToolCalls))
  }

  function Turns(limit: nat): nat {
    limit + 2 + MAX_REPAIR_CALLS
  }

  function Rounds(w: World, limit: nat, i: nat, loop: Loop): (end: Progress)
    ensures end.Ended?
    decreases Turns(limit) - i
  {
    if i >= Turns(limit) then Ended(DegradedOutcome(loop, InvalidOutput), loop)
    else
      var next := Round(w, limit, i, loop);
      if next.Going? then Rounds(w, limit, i + 1, next.loop) else next
  }

  function Fresh(base: Assessment): Loop {
    Loop(base, EvidenceIds(base.evidence), [], 0, UNUSED, [Context], [])
  }

  function RunOf(w: World, base: Assessment, maxToolCalls: int): (end: Progress)
    ensures end.Ended?
  {
    Rounds(w, ToolLimit(maxToolCalls), 0, Fresh(base))
  }

  // --- the loop itself ---

  lemma NoIds()
    ensures EvidenceIds([]) == {}
  {
  }

  lemma IdsOneMore(evidence: seq<Evidence>, i: nat)
    requires i < |evidence|
    ensures EvidenceIds(evidence[..i + 1]) == EvidenceIds(evidence[..i]) + {evidence[i].id}
  {
    assert evidence[..i + 1] == evidence[..i] + [evidence[i]];
    forall e | e in evidence[..i + 1] ensures e.id in EvidenceIds(evidence[..i]) + {evidence[i].id} {}
    forall e | e in evidence[..i] ensures e.id in EvidenceIds(evidence[..i + 1]) { assert e in evidence[..i + 1]; }
  }

  class Counters {
    var modelCalls: nat
    var inputTokens: nat
    var outputTokens: nat
    var toolCalls: seq<string>

    constructor ()
      ensures Read() == UNUSED
    {
      modelCalls, inputTokens, outputTokens, toolCalls := 0, 0, 0, [];
    }

    function Read(): Usage
      reads this
    {
      Usage(modelCalls, inputTokens, outputTokens, toolCalls)
    }
  }

  class ToolSession {
    var live: Assessment
    var known: set<string>
    var found: seq<Evidence>
    var trace: seq<Event>
    const counters: Counters

    constructor (base: Assessment, counters: Counters)
      ensures this.counters == counters
      ensures live == base && known == EvidenceIds(base.evidence) && found == [] && trace == []
    {
      live, known, found, trace := base, EvidenceIds(base.evidence), [], [];
      this.counters := counters;
    }

    function State(repairs: nat, messages: seq<Message>): Loop
      reads this, counters
    {
      Loop(live, known, found, repairs, counters.Read(), messages, trace)
    }

    /** Register the evidence a tool returned, first occurrence of each id. */
    method Register(evidence: seq<Evidence>)
      modifies this`known, this`found
      ensures known == old(known) + EvidenceIds(evidence)
      ensures found == old(found) + Novel(evidence, old(known))
    {
      hide EvidenceIds;
      assert EvidenceIds(evidence[..0]) == {} by { NoIds(); }
      var i := 0;
      while i < |evidence|
        invariant i <= |evidence|
        invariant known == old(known) + EvidenceIds(evidence[..i])
        invariant found + Novel(evidence[i..], known) == old(found) + Novel(evidence, old(known))
      {
        var e := evidence[i];
        assert evidence[i..][0] == e && evidence[i..][1..] == evidence[i + 1..];
        IdsOneMore(evidence, i);
        assert known + {e.id} == old(known) + EvidenceIds(evidence[..i + 1]);
        assert e.id in known ==> known + {e.id} == known;
        if e.id !in known {
          ghost var rest := Novel(evidence[i + 1..], known + {e.id});
          assert found + ([e] + rest) == (found + [e]) + rest;
          known, found := known + {e.id}, found + [e];
        }
        i := i + 1;
      }
      assert evidence[..i] == evidence;
    }

    /** Answer one call of a response that is not a submission. */
    method UseTool(w: World, limit: nat, call: Call, ghost t: Turn) returns (feedback: Feedback, crashed: bool)
      requires t.loop == State(t.loop.repairs, t.loop.messages) && !t.crashed
      modifies this, counters
      ensures var u := HandleTool(w, limit, t, call);
              && u.loop == State(t.loop.repairs, t.loop.messages) && u.crashed == crashed
              && (u.submitted, u.rejected) == (t.submitted, t.rejected)
              && u.results == if crashed then t.results else t.results + [ToolMessage(call.id, feedback)]
    {
      feedback, crashed := UnknownTool, false;
      if call.name !in w.tools { return; }
      if !w.valid(call.name, call.arguments) { return BadArguments, false; }
      if |counters.toolCalls| >= limit { return LimitReached, false; }
      var outcome := w.handle(|counters.toolCalls|, call.name, call.arguments, live);
      trace := trace + [Handling(call.name, outcome.Crashed?)];
      if outcome.Crashed? { return feedback, true; }
      live := outcome.live;
      counters.toolCalls := counters.toolCalls + [call.name];
      if outcome.Objected? { return ToolProblem(outcome.message), false; }
      Register(outcome.evidence);
      return ToolData(outcome.data), false;
    }
  }

  /** The inner loop: every call of one response, in order. */
  method AnswerCalls(w: World, limit: nat, session: ToolSession, calls: seq<Call>, ghost before: Loop)
    returns (results: seq<ToolMessage>, submitted: Option<Submission>, rejected: bool, crashed: bool)
    requires before == session.State(before.repairs, before.messages)
    modifies session, session.counters
    ensures Turn(session.State(before.repairs, before.messages), results, submitted, rejected, crashed) ==
            HandleCalls(w, limit, Turn(before, [], None, false, false), calls)
  {
    results, submitted, rejected, crashed := [], None, false, false;
    ghost var start := Turn(before, [], None, false, false);
    ghost var turn := start;
    var k := 0;
    while k < |calls|
      invariant k <= |calls| && !crashed
      invariant turn == Turn(session.State(before.repairs, before.messages), results, submitted, rejected, false)
      invariant HandleCalls(w, limit, turn, calls[k..]) == HandleCalls(w, limit, start, calls)
    {
      var call := calls[k];
      assert calls[k..][0] == call && calls[k..][1..] == calls[k + 1..];
      ghost var next := HandleCall(w, limit, turn, call);
      assert HandleCalls(w, limit, turn, calls[k..]) == HandleCalls(w, limit, next, calls[k + 1..]);
      if call.name == SUBMIT {
        var parsed := Validated(w, call.arguments, session.live, session.known);
        if parsed.Some? {
          submitted := parsed;
          results := results + [ToolMessage(call.id, Accepted)];
        } else {
          rejected := true;
          results := results + [ToolMessage(call.id, Problems)];
        }
      } else {
        var feedback;
        feedback, crashed := session.UseTool(w, limit, call, turn);
        if crashed { return; }
        results := results + [ToolMessage(call.id, feedback)];
      }
      turn := next;
      k := k + 1;
    }
  }

  /** What follows a response: the outcome, or the repairs and messages to go on with. */
  method AnswerResponse(w: World, limit: nat, session: ToolSession, response: Reply, done: nat, sent: seq<Message>)
    returns (end: Option<Outcome>, repairs: nat, messages: seq<Message>)
    requires response.Response?
    modifies session, session.counters
    ensures var next := AfterReply(w, limit, old(session.State(done, sent)), response);
            if end.Some? then next.Ended? && next.outcome == end.value && next.loop.trace == session.trace
            else next == Going(session.State(repairs, messages))
  {
    hide HandleCalls, Degrade, Merged;
    var counters := session.counters;
    counters.modelCalls := counters.modelCalls + 1;
    counters.inputTokens := counters.inputTokens + response.inputTokens;
    counters.outputTokens := counters.outputTokens + response.outputTokens;
    end, repairs, messages := None, done, sent + [Assistant(response.calls)];
    if response.calls == [] {
      if repairs >= MAX_REPAIR_CALLS {
        return Some(Degrade(session.live, counters.Read(), InvalidOutput)), repairs, messages;
      }
      repairs, messages := repairs + 1, messages + [NoToolCall];
      session.trace := session.trace + [Repairing];
      return;
    }
    var results, submitted, rejected, crashed :=
      AnswerCalls(w, limit, session, response.calls, session.State(repairs, messages));
    if crashed { return Some(Raised(HandlerCrashed)), repairs, messages; }
    if submitted.Some? {
      return Some(Succeeded(Merged(session.live, submitted.value, session.found), counters.Read())), repairs, messages;
    }
    if rejected {
      if repairs >= MAX_REPAIR_CALLS {
        return Some(Degrade(session.live, counters.Read(), InvalidOutput)), repairs, messages;
      }
      repairs := repairs + 1;
      session.trace := session.trace + [Repairing];
    }
    messages := messages + [Results(results)];
  }

  /** Runs the loop; the trace is what it asked of the budget, the provider and the tools. */
  method RunLoop(w: World, base: Assessment, maxToolCalls: int) returns (outcome: Outcome, trace: seq<Event>)
    ensures var end := RunOf(w, base, maxToolCalls);
            outcome == end.outcome && trace == end.loop.trace
  {
    hide AfterReply, FailedCall, Degrade, EvidenceIds;
    var toolLimit := Max(0, Min(MAX_TOOL_CALLS, maxToolCalls));
    var counters := new Counters();
    var session := new ToolSession(base, counters);
    var messages, repairs := [Context], 0;
    var i := 0;
    while i < toolLimit + 2 + MAX_REPAIR_CALLS
      invariant i <= Turns(toolLimit) && fresh(session) && fresh(counters) && session.counters == counters
      invariant Rounds(w, toolLimit, i, session.State(repairs, messages)) == RunOf(w, base, maxToolCalls)
    {
      if w.remaining(i) <= 0.0 { return Raised(DeadlineExceeded), session.trace; }
      session.trace := session.trace + [Reserving(w.reserved(i))];
      if !w.reserved(i) { return Degrade(session.live, counters.Read(), BudgetExceeded), session.trace; }
      var response := w.reply(i);
      session.trace := session.trace + [Asking(response)];
      if !response.Response? {
        FailedEnds(w, toolLimit, session.State(repairs, messages), response);
        return FailedCall(session.live, counters.Read(), response), session.trace;
      }
      var end;
      end, repairs, messages := AnswerResponse(w, toolLimit, session, response, repairs, messages);
      if end.Some? { return end.value, session.trace; }
      i := i + 1;
    }
    return Degrade(session.live, counters.Read(), InvalidOutput), session.trace;
  }
}
