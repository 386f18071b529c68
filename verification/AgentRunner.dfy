/** One sub-agent's loop and the orchestrator around it, in the form of the code
    (internal/agent/runner.go, internal/agent/orchestrator.go), proved to be runs of `SharedBudget`. */
module AgentRunner {
  import opened Tools
  import opened AgentTools
  import opened SharedBudget

  datatype Reply =
    | CallFailed(content: string)  // whatever came with the error
    | Answered(content: string, cost: nat, calls: seq<ToolCall>)

  /** One round of tool use: the calls and the results sent back. */
  datatype Round = Round(calls: seq<ToolCall>, results: seq<ToolResult>)

  /** The tools of the agent, and how bodies come out, by turn and place. */
  datatype Toolbox = Toolbox(allowed: set<string>, registry: Registry, outcomes: nat -> nat -> BodyOutcome)

  ghost predicate RoundOk(box: Toolbox, calls: seq<ToolCall>, turn: nat, round: Round) {
    round.calls == calls && AllAnswered(box.allowed, box.registry, calls, box.outcomes(turn), round.results)
  }

  datatype AgentResult = AgentResult(id: string, output: string, turns: nat, tokens: nat, ending: Ending)

  /** The counter all goroutines share, with the state of the whole job that it belongs to. */
  class Shared {
    var counter: int
    ghost var sys: Sys

    constructor (j: Job)
      ensures sys == Init(j) && Agrees(j)
    {
      counter := j.budget.maxTokens;
      sys := Init(j);
      InitInv(j);
    }

    ghost predicate Agrees(j: Job)
      reads this
    {
      Inv(j, sys) && (j.budget.Tracked() ==> counter == sys.remaining)
    }
  }

  ghost predicate Reaches(j: Job, s: Sys, t: Sys) {
    exists acts :: Legal(j, s, acts) && Run(j, s, acts) == t
  }

  /** Any number of steps of the other goroutines. */
  ghost predicate OthersReach(j: Job, i: nat, s: Sys, t: Sys) {
    exists acts: seq<Action> ::
      Legal(j, s, acts) && Run(j, s, acts) == t && forall k | 0 <= k < |acts| :: acts[k].i != i
  }

  lemma ReachesTransitive(j: Job, s: Sys, t: Sys, u: Sys)
    requires Reaches(j, s, t) && Reaches(j, t, u)
    ensures Reaches(j, s, u)
  {
    var a :| Legal(j, s, a) && Run(j, s, a) == t;
    var b :| Legal(j, t, b) && Run(j, t, b) == u;
    RunAppend(j, s, a, b);
  }

  lemma ReachesStep(j: Job, s: Sys, t: Sys, a: Action)
    requires Reaches(j, s, t) && Enabled(j, t, a)
    ensures Reaches(j, s, Apply(j, t, a))
  {
    var acts :| Legal(j, s, acts) && Run(j, s, acts) == t;
    RunSnoc(j, s, acts, a);
  }

  lemma ReachesSelf(j: Job, s: Sys)
    ensures Reaches(j, s, s) && OthersReach(j, 0, s, s)
  {
    assert Legal(j, s, []) && Run(j, s, []) == s;
  }

  /** Whatever the others do, they leave this agent's own record alone. */
  lemma {:induction false} OthersKeep(j: Job, i: nat, s: Sys, acts: seq<Action>)
    requires Legal(j, s, acts) && forall k | 0 <= k < |acts| :: acts[k].i != i
    ensures var t := Run(j, s, acts);
            |t.agents| == |s.agents| && (i < |s.agents| ==> t.agents[i] == s.agents[i])
    decreases |acts|
  {
    if acts != [] {
      OthersKeep(j, i, Apply(j, s, acts[0]), acts[1..]);
    }
  }

  /** A point where other goroutines may run: callers know only that each step was a legal one. */
  method OtherAgents(ghost j: Job, ghost i: nat, w: Shared)
    requires w.Agrees(j)
    modifies w
    ensures w.Agrees(j) && OthersReach(j, i, old(w.sys), w.sys)
  {
    assert Legal(j, w.sys, []) && Run(j, w.sys, []) == w.sys;
  }

  /** What an interruption by the others means for agent `i`. */
  lemma Interrupted(j: Job, i: nat, start: Sys, s: Sys, t: Sys)
    requires i < |s.agents| && OthersReach(j, i, s, t) && Reaches(j, start, s)
    ensures Reaches(j, start, t) && |t.agents| == |s.agents| && t.agents[i] == s.agents[i]
  {
    var acts: seq<Action> :| Legal(j, s, acts) && Run(j, s, acts) == t
                             && forall k | 0 <= k < |acts| :: acts[k].i != i;
    OthersKeep(j, i, s, acts);
    ReachesTransitive(j, start, s, t);
  }

  /** `turns` answers were used in order; the rounds sent back are those of the answers that asked for
      tools, each with one result per call, in order and under the call's own id. */
  ghost predicate Follows(box: Toolbox, model: seq<Reply>, turns: nat, rounds: seq<Round>) {
    && turns <= |model|
    && (forall k | 0 <= k < turns :: model[k].Answered?)
    && |rounds| <= turns <= |rounds| + 1
    && (forall k | 0 <= k < |rounds| ::
          RoundOk(box, model[k].calls, k + 1, rounds[k]) && rounds[k].calls != [])
  }

  function LastContent(model: seq<Reply>, turns: nat): string
    requires turns <= |model|
  {
    if turns > 0 then model[turns - 1].content else ""
  }

  /** Where the loop stopped: the answers it used, and what the last call returned. */
  ghost predicate Stopped(box: Toolbox, model: seq<Reply>, r: AgentResult, rounds: seq<Round>, last: string) {
    && Follows(box, model, r.turns, rounds)
    && (r.ending == Failed ==> r.turns < |model| && model[r.turns].CallFailed?)
    && last == if r.ending == Failed then model[r.turns].content else LastContent(model, r.turns)
  }

  /** Why the loop stopped, given the counter it left. */
  predicate EndsFor(j: Job, model: seq<Reply>, expired: seq<bool>, r: AgentResult, counter: int)
    requires |expired| == |model| + 1 && r.turns <= |model|
  {
    match r.ending
    case Exhausted => j.budget.Tracked() && counter <= 0
    case Cancelled => expired[r.turns] && r.turns < j.budget.EffectiveMaxTurns()
    case Failed => r.turns < |model| && model[r.turns].CallFailed?
    case Finished =>
      || r.turns >= j.budget.EffectiveMaxTurns()
      || (r.turns > 0 && model[r.turns - 1].Answered? && model[r.turns - 1].calls == []
          && (j.budget.Tracked() ==> counter > 0))
  }

  /** The sub-agent loop.  Under every interleaving it is a run of the shared system in which agent
      `i` ends with exactly the turns, tokens and ending that its result reports. */
  method RunAgent(j: Job, i: nat, w: Shared, box: Toolbox, model: seq<Reply>, expired: seq<bool>)
    returns (r: AgentResult, rounds: seq<Round>)
    requires w.Agrees(j) && i < j.Agents() == |w.sys.agents|
    requires w.sys.agents[i] == Agent(j.ids[i], AtCheck, 0, 0)
    requires |model| == j.budget.EffectiveMaxTurns() && |expired| == |model| + 1
    requires forall k | 0 <= k < |model| && model[k].Answered? :: model[k].cost <= j.maxCost
    modifies w
    ensures w.Agrees(j) && Reaches(j, old(w.sys), w.sys)
    ensures i < |w.sys.agents| && w.sys.agents[i] == Agent(r.id, Done(r.ending), r.turns, r.tokens)
    ensures r.id == j.ids[i]
    ensures Stopped(box, model, r, rounds, r.output) && EndsFor(j, model, expired, r, w.counter)
  {
    ghost var start := w.sys;
    ReachesSelf(j, w.sys);
    hide Inv, Reaches, Legal, Run, Follows, LastContent;
    var last;
    r, rounds, last := Loop(j, i, w, box, model, expired, start);
    if r.output == "" && last != "" {
      r := r.(output := last);
    }
  }

  method Loop(j: Job, i: nat, w: Shared, box: Toolbox, model: seq<Reply>, expired: seq<bool>, ghost start: Sys)
    returns (r: AgentResult, rounds: seq<Round>, last: string)
    requires w.Agrees(j) && i < j.Agents() == |w.sys.agents| && Reaches(j, start, w.sys)
    requires w.sys.agents[i] == Agent(j.ids[i], AtCheck, 0, 0)
    requires |model| == j.budget.EffectiveMaxTurns() && |expired| == |model| + 1
    requires forall k | 0 <= k < |model| && model[k].Answered? :: model[k].cost <= j.maxCost
    modifies w
    ensures w.Agrees(j) && Reaches(j, start, w.sys)
    ensures i < |w.sys.agents| && w.sys.agents[i] == Agent(j.ids[i], Done(r.ending), r.turns, r.tokens)
    ensures r.id == j.ids[i] && (r.output == "" || r.output == last)
    ensures Stopped(box, model, r, rounds, last) && EndsFor(j, model, expired, r, w.counter)
  {
    hide Inv, Reaches, Legal, Run, AllAnswered, EndsFor;
    r, rounds, last := AgentResult(j.ids[i], "", 0, 0, Finished), [], "";
    var phase := AtCheck;
    while phase.AtCheck?
      invariant w.Agrees(j) && Reaches(j, start, w.sys)
      invariant i < |w.sys.agents| && w.sys.agents[i] == Agent(j.ids[i], phase, r.turns, r.tokens)
      invariant r.id == j.ids[i] && (r.output == "" || r.output == last)
      invariant Stopped(box, model, r, rounds, last)
      invariant phase.AtCheck? ==> |rounds| == r.turns && r.ending == Finished && r.output == ""
      invariant phase.AtCheck? || (phase == Done(r.ending) && EndsFor(j, model, expired, r, w.counter))
      decreases if phase.AtCheck? then |model| + 1 - r.turns else 0
    {
      phase, r, last := TakeTurn(j, i, w, model, r, last, expired, start);
      if phase.AtCheck? {
        var calls := model[r.turns - 1].calls;
        var results, ran := ExecuteTools(box.allowed, box.registry, calls, box.outcomes(r.turns));
        rounds := rounds + [Round(calls, results)];
      }
    }
  }

  /** The others run between two steps of agent `i`. */
  method Yield(ghost j: Job, ghost i: nat, w: Shared, ghost start: Sys)
    requires w.Agrees(j) && i < |w.sys.agents| && Reaches(j, start, w.sys)
    modifies w
    ensures w.Agrees(j) && Reaches(j, start, w.sys)
    ensures i < |w.sys.agents| && w.sys.agents[i] == old(w.sys.agents[i])
  {
    OtherAgents(j, i, w);
    Interrupted(j, i, start, old(w.sys), w.sys);
  }

  /** The tests at the head of the loop, in the code's order; ends in the agent's next phase. */
  method CheckHead(j: Job, ghost i: nat, w: Shared, expired: bool, turn: nat, ghost start: Sys) returns (phase: Phase)
    requires w.Agrees(j) && i < |w.sys.agents| && Reaches(j, start, w.sys)
    requires w.sys.agents[i].phase.AtCheck? && w.sys.agents[i].turns == turn
    modifies w
    ensures w.Agrees(j) && Reaches(j, start, w.sys)
    ensures i < |w.sys.agents| && w.sys.agents[i] == old(w.sys.agents[i]).(phase := phase)
    ensures phase.InCall? || phase.Done?
    ensures phase.Done? ==> phase.ending != Failed
    ensures phase == Done(Finished) <==> turn >= j.budget.EffectiveMaxTurns()
    ensures phase == Done(Cancelled) <==> turn < j.budget.EffectiveMaxTurns() && expired
    ensures phase.InCall? <==>
              turn < j.budget.EffectiveMaxTurns() && !expired && (j.budget.Tracked() ==> w.counter > 0)
  {
    Yield(j, i, w, start);
    if turn >= j.budget.EffectiveMaxTurns() {
      phase := Done(Finished);
    } else if expired {
      phase := Done(Cancelled);
    } else if j.budget.Tracked() && w.counter <= 0 {
      phase := Done(Exhausted);
    } else {
      phase := InCall;
    }
    Step(j, w, start, Check(i, expired));
  }

  method Abandon(ghost j: Job, ghost i: nat, w: Shared, ghost start: Sys)
    requires w.Agrees(j) && i < |w.sys.agents| && Reaches(j, start, w.sys) && w.sys.agents[i].phase.InCall?
    modifies w
    ensures w.Agrees(j) && Reaches(j, start, w.sys)
    ensures i < |w.sys.agents| && w.sys.agents[i] == old(w.sys.agents[i]).(phase := Done(Failed))
  {
    Yield(j, i, w, start);
    Step(j, w, start, CallError(i));
  }

  /** The call answers and its tokens are reported. */
  method Report(ghost j: Job, ghost i: nat, w: Shared, cost: nat, more: bool, ghost start: Sys)
    requires w.Agrees(j) && i < |w.sys.agents| && Reaches(j, start, w.sys) && w.sys.agents[i].phase.InCall?
    requires cost <= j.maxCost
    modifies w
    ensures w.Agrees(j) && Reaches(j, start, w.sys) && i < |w.sys.agents|
    ensures var was := old(w.sys.agents[i]);
            w.sys.agents[i] == was.(phase := SharedBudget.Charged(cost, more), turns := was.turns + 1,
                                    tokens := was.tokens + cost)
  {
    hide Inv, Reaches;
    Yield(j, i, w, start);
    Step(j, w, start, Answer(i, cost, more));
  }

  /** They are subtracted, and the loop stops or goes on. */
  method Subtract(j: Job, ghost i: nat, w: Shared, cost: nat, more: bool, ghost start: Sys) returns (phase: Phase)
    requires w.Agrees(j) && i < |w.sys.agents| && Reaches(j, start, w.sys)
    requires w.sys.agents[i].phase == SharedBudget.Charged(cost, more)
    modifies w
    ensures w.Agrees(j) && Reaches(j, start, w.sys) && i < |w.sys.agents|
    ensures w.sys.agents[i] == old(w.sys.agents[i]).(phase := phase)
    ensures phase.AtCheck? || phase.Done?
    ensures phase == Done(Exhausted) <==> j.budget.Tracked() && w.counter <= 0
    ensures phase == Done(Finished) <==> !(j.budget.Tracked() && w.counter <= 0) && !more
    ensures phase.Done? ==> phase.ending in {Exhausted, Finished}
  {
    hide Inv, Reaches;
    Yield(j, i, w, start);
    if j.budget.Tracked() {
      w.counter := w.counter - cost;
    }
    StepCharged(j, w, start, Deduct(i));
    phase := if j.budget.Tracked() && w.counter <= 0 then Done(Exhausted)
             else if !more then Done(Finished)
             else AtCheck;
  }

  /** The call answers, its tokens are reported, and then, a separate step, subtracted. */
  method Charge(j: Job, ghost i: nat, w: Shared, cost: nat, more: bool, ghost start: Sys) returns (phase: Phase)
    requires w.Agrees(j) && i < |w.sys.agents| && Reaches(j, start, w.sys) && w.sys.agents[i].phase.InCall?
    requires cost <= j.maxCost
    modifies w
    ensures w.Agrees(j) && Reaches(j, start, w.sys)
    ensures i < |w.sys.agents|
    ensures var was := old(w.sys.agents[i]);
            w.sys.agents[i] == was.(phase := phase, turns := was.turns + 1, tokens := was.tokens + cost)
    ensures phase.AtCheck? || phase.Done?
    ensures phase == Done(Exhausted) <==> j.budget.Tracked() && w.counter <= 0
    ensures phase == Done(Finished) <==> !(j.budget.Tracked() && w.counter <= 0) && !more
    ensures phase.Done? ==> phase.ending in {Exhausted, Finished}
  {
    hide Inv, Reaches;
    Report(j, i, w, cost, more, start);
    phase := Subtract(j, i, w, cost, more, start);
  }

  /** One pass of the loop up to the tools: check, call, report, subtract. */
  method TakeTurn(j: Job, ghost i: nat, w: Shared, model: seq<Reply>, r: AgentResult, last: string,
                  expired: seq<bool>, ghost start: Sys)
    returns (phase: Phase, r': AgentResult, last': string)
    requires w.Agrees(j) && i < |w.sys.agents| && Reaches(j, start, w.sys)
    requires w.sys.agents[i] == Agent(r.id, AtCheck, r.turns, r.tokens) && r.ending == Finished
    requires |model| == j.budget.EffectiveMaxTurns() && |expired| == |model| + 1 && r.turns <= |model|
    requires r.turns < |model| && model[r.turns].Answered? ==> model[r.turns].cost <= j.maxCost
    modifies w
    ensures w.Agrees(j) && Reaches(j, start, w.sys)
    ensures i < |w.sys.agents| && w.sys.agents[i] == Agent(r.id, phase, r'.turns, r'.tokens)
    ensures r'.id == r.id && (r'.output == r.output || r'.output == last')
    ensures phase.AtCheck? || phase == Done(r'.ending)
    ensures phase.AtCheck? ==> r'.turns == r.turns + 1 && r'.output == r.output && r'.ending == Finished
    ensures if r'.turns == r.turns then
              && phase.Done?
              && (if r'.ending == Failed
                  then r.turns < |model| && model[r.turns].CallFailed? && last' == model[r.turns].content
                  else last' == last)
            else
              && r'.turns == r.turns + 1 && r.turns < |model| && model[r.turns].Answered?
              && last' == model[r.turns].content && r'.ending != Failed
              && (phase.AtCheck? ==> model[r.turns].calls != [])
    ensures phase.Done? ==> EndsFor(j, model, expired, r', w.counter)
  {
    hide Inv, Reaches, Legal, Run;
    r', last' := r, last;
    phase := CheckHead(j, i, w, expired[r.turns], r.turns, start);
    if phase.InCall? {
      var reply := model[r.turns];
      last' := reply.content;
      if reply.CallFailed? {
        Abandon(j, i, w, start);
        phase := Done(Failed);
      } else {
        phase := Charge(j, i, w, reply.cost, reply.calls != [], start);
        r' := r.(tokens := r.tokens + reply.cost, turns := r.turns + 1,
                 output := if phase.Done? then reply.content else r.output);
      }
    }
    if phase.Done? {
      r' := r'.(ending := phase.ending);
    }
  }

  /** Records a step that leaves the counter alone. */
  ghost method Step(j: Job, w: Shared, start: Sys, a: Action)
    requires w.Agrees(j) && Enabled(j, w.sys, a) && !a.Deduct? && Reaches(j, start, w.sys)
    modifies w`sys
    ensures w.sys == Apply(j, old(w.sys), a) && w.Agrees(j) && Reaches(j, start, w.sys)
  {
    StepInv(j, w.sys, a);
    ReachesStep(j, start, w.sys, a);
    w.sys := Apply(j, w.sys, a);
  }

  /** Records the subtraction that has just been made. */
  ghost method StepCharged(j: Job, w: Shared, start: Sys, a: Action)
    requires a.Deduct? && Inv(j, w.sys) && Enabled(j, w.sys, a) && Reaches(j, start, w.sys)
    requires j.budget.Tracked() ==> w.counter == w.sys.remaining - w.sys.agents[a.i].phase.cost
    modifies w`sys
    ensures w.sys == Apply(j, old(w.sys), a) && w.Agrees(j) && Reaches(j, start, w.sys)
  {
    StepInv(j, w.sys, a);
    ReachesStep(j, start, w.sys, a);
    w.sys := Apply(j, w.sys, a);
  }

  // ---------- the orchestrator's own loops ----------

  function TokenSum(results: seq<AgentResult>): nat {
    if results == [] then 0 else TokenSum(results[..|results| - 1]) + results[|results| - 1].tokens
  }

  function Successes(results: seq<AgentResult>): set<nat> {
    set k: nat | k < |results| && results[k].ending == Finished
  }

  /** The figures of the closing event. */
  method Summarise(results: seq<AgentResult>) returns (successCount: nat, totalTokens: nat)
    ensures successCount == |Successes(results)| && totalTokens == TokenSum(results)
  {
    successCount, totalTokens := 0, 0;
    for k := 0 to |results|
      invariant successCount == |Successes(results[..k])| && totalTokens == TokenSum(results[..k])
    {
      assert results[..k + 1][..k] == results[..k];
      if results[k].ending == Finished {
        successCount := successCount + 1;
        assert Successes(results[..k + 1]) == Successes(results[..k]) + {k};
      } else {
        assert Successes(results[..k + 1]) == Successes(results[..k]);
      }
      totalTokens := totalTokens + results[k].tokens;
    }
    assert results[..|results|] == results;
  }

  /** The results of a finished job: slot `k` belongs to spec `k`. */
  ghost predicate ResultsOf(results: seq<AgentResult>, s: Sys) {
    |results| == |s.agents| && forall k | 0 <= k < |results| ::
      s.agents[k] == Agent(results[k].id, Done(results[k].ending), results[k].turns, results[k].tokens)
  }

  lemma {:induction false} TokenSumIsTokens(results: seq<AgentResult>, agents: seq<Agent>)
    requires |results| == |agents| && forall k | 0 <= k < |results| :: agents[k].tokens == results[k].tokens
    ensures TokenSum(results) == Sum(agents, TokensOf)
  {
    if agents != [] {
      var n := |agents| - 1;
      TokenSumIsTokens(results[..n], agents[..n]);
      SumSnoc(agents[..n], agents[n]);
      assert agents[..n] + [agents[n]] == agents;
    }
  }

  lemma {:induction false} SumSnoc(agents: seq<Agent>, a: Agent)
    ensures Sum(agents + [a], TokensOf) == Sum(agents, TokensOf) + a.tokens
  {
    if agents == [] {
      assert (agents + [a])[1..] == [];
    } else {
      SumSnoc(agents[1..], a);
      assert (agents + [a])[1..] == agents[1..] + [a];
    }
  }

  /** The total the orchestrator reports is what the counter lost, and never exceeds the worst case. */
  lemma ReportedTotal(j: Job, acts: seq<Action>, results: seq<AgentResult>)
    requires Legal(j, Init(j), acts) && ResultsOf(results, Run(j, Init(j), acts))
    ensures TokenSum(results) <= WorstCase(j)
    ensures j.budget.Tracked() ==> Run(j, Init(j), acts).remaining == j.budget.maxTokens - TokenSum(results)
    ensures |results| == j.Agents() && forall k | 0 <= k < |results| :: results[k].id == j.ids[k]
  {
    var s := Run(j, Init(j), acts);
    forall k | 0 <= k < |s.agents| ensures s.agents[k].phase.Done? {
      assert s.agents[k] == Agent(results[k].id, Done(results[k].ending), results[k].turns, results[k].tokens);
    }
    QuiescentAccounts(j, acts);
    SpendBound(j, acts);
    TokenSumIsTokens(results, s.agents);
  }
}
