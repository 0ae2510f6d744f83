/** What no model, budget, deadline or tool behaviour can make the loop do. */
module AgentFacts {
  import opened Basics
  import opened AgentRanking
  import opened AgentLoop

  // --- the resources it uses, and the account it gives of them ---

  function Asks(trace: seq<Event>): nat {
    if trace == [] then 0 else Asks(trace[..|trace| - 1]) + if trace[|trace| - 1].Asking? then 1 else 0
  }

  function Handlings(trace: seq<Event>): nat {
    if trace == [] then 0 else Handlings(trace[..|trace| - 1]) + if trace[|trace| - 1].Handling? then 1 else 0
  }

  function Repairs(trace: seq<Event>): nat {
    if trace == [] then 0 else Repairs(trace[..|trace| - 1]) + if trace[|trace| - 1].Repairing? then 1 else 0
  }

  /** The responses received, their tokens, and the tools that ran to completion, in order. */
  function UsageOf(trace: seq<Event>): Usage {
    if trace == [] then UNUSED
    else
      var u := UsageOf(trace[..|trace| - 1]);
      match trace[|trace| - 1]
      case Asking(Response(_, input, output)) =>
        u.(modelCalls := u.modelCalls + 1, inputTokens := u.inputTokens + input,
            outputTokens := u.outputTokens + output)
      case Handling(tool, false) => u.(toolCalls := u.toolCalls + [tool])
      case _ => u
  }

  /** Every provider call comes right after a reservation of its own. */
  predicate Paid(trace: seq<Event>) {
    forall k: nat :: k < |trace| && trace[k].Asking? ==> k > 0 && trace[k - 1] == Reserving(true)
  }

  lemma OneMore(trace: seq<Event>, e: Event)
    ensures Asks(trace + [e]) == Asks(trace) + if e.Asking? then 1 else 0
    ensures Handlings(trace + [e]) == Handlings(trace) + if e.Handling? then 1 else 0
    ensures Repairs(trace + [e]) == Repairs(trace) + if e.Repairing? then 1 else 0
    ensures UsageOf(trace + [e]) ==
            match e
            case Asking(Response(_, input, output)) =>
              var u := UsageOf(trace);
              u.(modelCalls := u.modelCalls + 1, inputTokens := u.inputTokens + input,
                  outputTokens := u.outputTokens + output)
            case Handling(tool, false) => UsageOf(trace).(toolCalls := UsageOf(trace).toolCalls + [tool])
            case _ => UsageOf(trace)
    ensures Paid(trace) && (e.Asking? ==> trace != [] && trace[|trace| - 1] == Reserving(true)) ==> Paid(trace + [e])
  {
    assert (trace + [e])[..|trace|] == trace;
  }

  /** The accounts of the loop; a handler that crashed, a provider call that failed, are not counted in them. */
  predicate Accounts(limit: nat, loop: Loop, crashed: bool, failed: bool) {
    && Paid(loop.trace)
    && Asks(loop.trace) == loop.usage.modelCalls + (if failed then 1 else 0)
    && loop.usage == UsageOf(loop.trace)
    && Handlings(loop.trace) == |loop.usage.toolCalls| + (if crashed then 1 else 0) <= limit
    && Repairs(loop.trace) == loop.repairs <= MAX_REPAIR_CALLS
  }

  lemma CallAccounts(w: World, limit: nat, t: Turn, call: Call)
    requires !t.crashed && Accounts(limit, t.loop, false, false)
    ensures var u := HandleCall(w, limit, t, call);
            Accounts(limit, u.loop, u.crashed, false) && Asks(u.loop.trace) == Asks(t.loop.trace)
  {
    hide Asks, Handlings, Repairs, UsageOf, Paid, Novel, EvidenceIds, Validated;
    OneMore(t.loop.trace, Handling(call.name, false));
    OneMore(t.loop.trace, Handling(call.name, true));
  }

  lemma {:induction false} CallsAccounts(w: World, limit: nat, t: Turn, calls: seq<Call>)
    requires !t.crashed && Accounts(limit, t.loop, false, false)
    ensures var u := HandleCalls(w, limit, t, calls);
            Accounts(limit, u.loop, u.crashed, false) && Asks(u.loop.trace) == Asks(t.loop.trace)
    decreases |calls|
  {
    hide Accounts, HandleCall, Asks;
    if calls != [] {
      CallAccounts(w, limit, t, calls[0]);
      var u := HandleCall(w, limit, t, calls[0]);
      if !u.crashed { CallsAccounts(w, limit, u, calls[1..]); }
    }
  }

  /** The last provider call raised. */
  predicate CallFailed(outcome: Outcome) {
    outcome == Raised(ProviderUnavailable)
    || (outcome.Degraded? &&
        (outcome.reason.LlmRefusal? || outcome.reason.LlmInvalidResponse? || outcome.reason.LlmDisabled?))
  }

  /** Accounts in order, and one provider call more than before at most. */
  predicate RoundAccounts(limit: nat, asked: nat, p: Progress) {
    match p
    case Going(loop) => Accounts(limit, loop, false, false) && Asks(loop.trace) == asked
    case Ended(outcome, loop) =>
      && Asks(loop.trace) <= asked
      && Accounts(limit, loop, outcome == Raised(HandlerCrashed), CallFailed(outcome))
      && (outcome.Succeeded? || outcome.Degraded? ==> outcome.usage == loop.usage)
  }

  lemma RepairAccounts(limit: nat, loop: Loop, message: Message)
    requires Accounts(limit, loop, false, false)
    ensures RoundAccounts(limit, Asks(loop.trace), Repaired(loop, message))
  {
    hide Asks, Handlings, Repairs, UsageOf, Paid;
    OneMore(loop.trace, Repairing);
  }

  lemma ReplyAccounts(w: World, limit: nat, loop: Loop, reply: Reply)
    requires loop.trace != [] && loop.trace[|loop.trace| - 1] == Asking(reply) && Paid(loop.trace)
    requires Accounts(limit, loop.(trace := loop.trace[..|loop.trace| - 1]), false, false)
    ensures RoundAccounts(limit, Asks(loop.trace), AfterReply(w, limit, loop, reply))
  {
    hide Asks, Handlings, Repairs, UsageOf, Paid, HandleCalls, Merged;
    var before := loop.trace[..|loop.trace| - 1];
    OneMore(before, Asking(reply));
    assert before + [Asking(reply)] == loop.trace;
    if reply.Response? {
      var counted := Counted(loop, reply);
      assert Accounts(limit, counted, false, false);
      if reply.calls == [] {
        RepairAccounts(limit, counted, NoToolCall);
      } else {
        CallsAccounts(w, limit, Turn(counted, [], None, false, false), reply.calls);
        var t := HandleCalls(w, limit, Turn(counted, [], None, false, false), reply.calls);
        if !t.crashed { RepairAccounts(limit, t.loop, Results(t.results)); }
      }
    }
  }

  lemma OneRound(w: World, limit: nat, i: nat, loop: Loop)
    requires Accounts(limit, loop, false, false) && Asks(loop.trace) == i
    ensures RoundAccounts(limit, i + 1, Round(w, limit, i, loop))
  {
    hide Asks, Handlings, Repairs, UsageOf, Paid, AfterReply;
    var reserved := loop.trace + [Reserving(w.reserved(i))];
    OneMore(loop.trace, Reserving(w.reserved(i)));
    OneMore(reserved, Asking(w.reply(i)));
    if w.remaining(i) > 0.0 && w.reserved(i) {
      var asked := loop.(trace := reserved + [Asking(w.reply(i))]);
      assert asked.trace[..|asked.trace| - 1] == reserved;
      ReplyAccounts(w, limit, asked, w.reply(i));
    }
  }

  lemma {:induction false} AllRounds(w: World, limit: nat, i: nat, loop: Loop)
    requires i <= Turns(limit) && Accounts(limit, loop, false, false) && Asks(loop.trace) == i
    ensures RoundAccounts(limit, Turns(limit), Rounds(w, limit, i, loop))
    decreases Turns(limit) - i
  {
    hide Accounts, Asks, Round;
    if i < Turns(limit) {
      OneRound(w, limit, i, loop);
      var next := Round(w, limit, i, loop);
      if next.Going? { AllRounds(w, limit, i + 1, next.loop); }
    }
  }

  /**
    Whatever the world does: at most tool limit + 3 provider calls, each paid for by its own
    reservation; at most min(4, max_tool_calls) handler invocations; at most one repair; and the
    reported usage is exactly what happened, except that a provider call that raised is left out.
   */
  lemma ResourcesAreBounded(w: World, base: Assessment, maxToolCalls: int)
    ensures var end := RunOf(w, base, maxToolCalls);
            var trace, limit := end.loop.trace, ToolLimit(maxToolCalls);
            && Paid(trace) && Asks(trace) <= limit + 3 <= 7
            && Handlings(trace) <= limit && limit <= Max(0, maxToolCalls)
            && Repairs(trace) <= 1
            && (end.outcome.Succeeded? || end.outcome.Degraded? ==>
                  && end.outcome.usage == UsageOf(trace)
                  && Handlings(trace) == |end.outcome.usage.toolCalls|
                  && Asks(trace) == end.outcome.usage.modelCalls + if CallFailed(end.outcome) then 1 else 0)
  {
    AllRounds(w, ToolLimit(maxToolCalls), 0, Fresh(base));
  }
}
