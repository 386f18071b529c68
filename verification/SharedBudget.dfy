/** Sub-agents that run in parallel against one token counter
    (internal/agent/orchestrator.go, internal/agent/runner.go, internal/agent/types.go).

    Each agent repeats: load the counter, call the model, add the call's tokens to its own result,
    subtract them from the counter.  The four are separate atomic steps, so any interleaving of any
    number of agents is a sequence of actions below. */
module SharedBudget {
  const DEFAULT_MAX_TURNS := 10
  const DEFAULT_MAX_AGENTS := 5

  datatype Budget = Budget(maxTokens: int, maxTurns: int, maxAgents: int) {
    function EffectiveMaxTurns(): (m: nat)
      ensures m > 0
    {
      if maxTurns > 0 then maxTurns else DEFAULT_MAX_TURNS
    }

    function EffectiveMaxAgents(): (m: nat)
      ensures m > 0
    {
      if maxAgents > 0 then maxAgents else DEFAULT_MAX_AGENTS
    }

    /** Without a positive token limit there is no counter at all. */
    predicate Tracked() {
      maxTokens > 0
    }
  }

  datatype Ending = Finished | Exhausted | Failed | Cancelled

  datatype Phase =
    | Queued                          // waiting for the semaphore
    | AtCheck                         // at the head of the turn loop
    | InCall                          // the model call is under way
    | Charged(cost: nat, more: bool)  // answered; not yet subtracted; `more` when tools were asked for
    | Done(ending: Ending)

  datatype Agent = Agent(id: string, phase: Phase, turns: nat, tokens: nat)

  /** `ids` are the requested specs, `maxCost` the most one call may use. */
  datatype Job = Job(ids: seq<string>, budget: Budget, maxCost: nat) {
    function Agents(): (n: nat)
      ensures n <= |ids| && n <= budget.EffectiveMaxAgents()
    {
      if |ids| > budget.EffectiveMaxAgents() then budget.EffectiveMaxAgents() else |ids|
    }
  }

  datatype Sys = Sys(remaining: int, agents: seq<Agent>, permits: nat, calls: nat)

  datatype Action =
    | Start(i: nat)
    | Refuse(i: nat)                          // cancelled before it got the semaphore
    | Check(i: nat, expired: bool)
    | Answer(i: nat, cost: nat, more: bool)
    | CallError(i: nat)
    | Deduct(i: nat)

  function Init(j: Job): Sys {
    Sys(j.budget.maxTokens, seq(j.Agents(), k requires 0 <= k < j.Agents() => Agent(j.ids[k], Queued, 0, 0)), 0, 0)
  }

  predicate Enabled(j: Job, s: Sys, a: Action) {
    a.i < |s.agents| &&
    var p := s.agents[a.i].phase;
    match a
    case Start(_) => p.Queued? && s.permits < j.budget.EffectiveMaxAgents()
    case Refuse(_) => p.Queued?
    case Check(_, _) => p.AtCheck?
    case Answer(_, cost, _) => p.InCall? && cost <= j.maxCost
    case CallError(_) => p.InCall?
    case Deduct(_) => p.Charged?
  }

  function Put(s: Sys, i: nat, a: Agent): Sys
    requires i < |s.agents|
  {
    s.(agents := s.agents[i := a])
  }

  /** The agent's goroutine ends and gives its semaphore slot back. */
  function Finish(s: Sys, i: nat, e: Ending): Sys
    requires i < |s.agents|
  {
    Put(s, i, s.agents[i].(phase := Done(e))).(permits := if s.permits > 0 then s.permits - 1 else 0)
  }

  function Apply(j: Job, s: Sys, a: Action): Sys
    requires Enabled(j, s, a)
  {
    var g := s.agents[a.i];
    match a
    case Start(i) => Put(s, i, g.(phase := AtCheck)).(permits := s.permits + 1)
    case Refuse(i) => Put(s, i, g.(phase := Done(Cancelled)))
    case Check(i, expired) =>
      if g.turns >= j.budget.EffectiveMaxTurns() then Finish(s, i, Finished)
      else if expired then Finish(s, i, Cancelled)
      else if j.budget.Tracked() && s.remaining <= 0 then Finish(s, i, Exhausted)
      else Put(s, i, g.(phase := InCall)).(calls := s.calls + 1)
    case Answer(i, cost, more) =>
      Put(s, i, g.(phase := Charged(cost, more), turns := g.turns + 1, tokens := g.tokens + cost))
    case CallError(i) => Finish(s, i, Failed)
    case Deduct(i) =>
      var t := if j.budget.Tracked() then s.(remaining := s.remaining - g.phase.cost) else s;
      if j.budget.Tracked() && t.remaining <= 0 then Finish(t, i, Exhausted)
      else if !g.phase.more then Finish(t, i, Finished)
      else Put(t, i, g.(phase := AtCheck))
  }

  predicate Legal(j: Job, s: Sys, acts: seq<Action>)
    decreases |acts|
  {
    acts == [] || (Enabled(j, s, acts[0]) && Legal(j, Apply(j, s, acts[0]), acts[1..]))
  }

  function Run(j: Job, s: Sys, acts: seq<Action>): Sys
    requires Legal(j, s, acts)
    decreases |acts|
  {
    if acts == [] then s else Run(j, Apply(j, s, acts[0]), acts[1..])
  }

  lemma {:induction false} RunAppend(j: Job, s: Sys, a: seq<Action>, b: seq<Action>)
    requires Legal(j, s, a) && Legal(j, Run(j, s, a), b)
    ensures Legal(j, s, a + b) && Run(j, s, a + b) == Run(j, Run(j, s, a), b)
    decreases |a|
  {
    if a == [] {
      assert a + b == b;
    } else {
      RunAppend(j, Apply(j, s, a[0]), a[1..], b);
      assert (a + b)[1..] == a[1..] + b;
    }
  }

  lemma RunSnoc(j: Job, s: Sys, acts: seq<Action>, a: Action)
    requires Legal(j, s, acts) && Enabled(j, Run(j, s, acts), a)
    ensures Legal(j, s, acts + [a]) && Run(j, s, acts + [a]) == Apply(j, Run(j, s, acts), a)
  {
    var t := Run(j, s, acts);
    assert [a][1..] == [];
    assert Legal(j, Apply(j, t, a), [a][1..]);
    RunAppend(j, s, acts, [a]);
  }

  /** What `calls` model calls can cost at most. */
  function CostOf(j: Job, calls: int): int {
    calls * j.maxCost
  }

  lemma CostAdds(j: Job, a: int, b: int)
    ensures CostOf(j, a + b) == CostOf(j, a) + CostOf(j, b)
    ensures CostOf(j, 1) == j.maxCost && CostOf(j, 0) == 0
  {
  }

  lemma CostGrows(j: Job, a: int, b: int)
    requires a <= b
    ensures CostOf(j, a) <= CostOf(j, b)
  {
  }

  lemma CostOfProduct(j: Job, n: int, m: int)
    ensures n * CostOf(j, m) == CostOf(j, n * m)
  {
  }

  // ---------- sums over the agents ----------

  function Sum(agents: seq<Agent>, f: Agent -> int): int {
    if agents == [] then 0 else f(agents[0]) + Sum(agents[1..], f)
  }

  lemma {:induction false} SumPut(agents: seq<Agent>, i: nat, a: Agent, f: Agent -> int)
    requires i < |agents|
    ensures Sum(agents[i := a], f) == Sum(agents, f) - f(agents[i]) + f(a)
  {
    if i == 0 {
      assert agents[0 := a][1..] == agents[1..];
    } else {
      SumPut(agents[1..], i - 1, a, f);
      assert agents[i := a][1..] == agents[1..][i - 1 := a];
    }
  }

  lemma {:induction false} SumBounds(agents: seq<Agent>, f: Agent -> int, low: int, high: int)
    requires forall k | 0 <= k < |agents| :: low <= f(agents[k]) <= high
    ensures |agents| * low <= Sum(agents, f) <= |agents| * high
  {
    if agents != [] {
      SumBounds(agents[1..], f, low, high);
    }
  }

  lemma {:induction false} SumMonotone(agents: seq<Agent>, f: Agent -> int, g: Agent -> int)
    requires forall k | 0 <= k < |agents| :: f(agents[k]) <= g(agents[k])
    ensures Sum(agents, f) <= Sum(agents, g)
  {
    if agents != [] {
      SumMonotone(agents[1..], f, g);
    }
  }

  /** The tokens all results report. */
  function Tokens(s: Sys): int {
    Sum(s.agents, TokensOf)
  }

  function TokensOf(a: Agent): int {
    a.tokens
  }

  /** Tokens reported but not yet subtracted from the counter. */
  function Unsubtracted(s: Sys): int {
    Sum(s.agents, PendingOf)
  }

  function PendingOf(a: Agent): int {
    if a.phase.Charged? then a.phase.cost else 0
  }

  /** What calls under way may still take from the counter. */
  function Reserved(j: Job, s: Sys): int {
    Sum(s.agents, ReservedBy(j))
  }

  function ReservedOf(j: Job, a: Agent): int {
    if a.phase.InCall? then j.maxCost else PendingOf(a)
  }

  function ReservedBy(j: Job): Agent -> int {
    a => ReservedOf(j, a)
  }

  predicate Running(a: Agent) {
    a.phase.AtCheck? || a.phase.InCall? || a.phase.Charged?
  }

  function RunningOf(a: Agent): int {
    if Running(a) then 1 else 0
  }

  /** Model calls the agent has started: the answered ones and the one open or failed. */
  function StartedOf(a: Agent): int {
    a.turns + if a.phase.InCall? || a.phase == Done(Failed) then 1 else 0
  }

  ghost predicate AgentOk(j: Job, a: Agent) {
    && StartedOf(a) <= j.budget.EffectiveMaxTurns()
    && a.tokens <= CostOf(j, a.turns)
    && (a.phase.Charged? ==> a.phase.cost <= j.maxCost)
  }

  ghost predicate Inv(j: Job, s: Sys) {
    && |s.agents| == j.Agents()
    && (forall k | 0 <= k < |s.agents| :: AgentOk(j, s.agents[k]) && s.agents[k].id == j.ids[k])
    && s.permits == Sum(s.agents, RunningOf)
    && s.calls == Sum(s.agents, StartedOf)
    && (j.budget.Tracked() ==>
          && s.remaining == j.budget.maxTokens - Tokens(s) + Unsubtracted(s)
          && s.remaining - Reserved(j, s) >= 1 - CostOf(j, j.Agents()))
  }

  lemma InitInv(j: Job)
    ensures Inv(j, Init(j))
  {
    var s := Init(j);
    SumBounds(s.agents, RunningOf, 0, 0);
    SumBounds(s.agents, StartedOf, 0, 0);
    SumBounds(s.agents, PendingOf, 0, 0);
    SumBounds(s.agents, TokensOf, 0, 0);
    SumBounds(s.agents, ReservedBy(j), 0, 0);
    CostAdds(j, 0, 0);
    CostGrows(j, 0, j.Agents());
  }

  /** The effect of replacing one agent on all the sums at once. */
  lemma SumsPut(j: Job, s: Sys, i: nat, a: Agent)
    requires i < |s.agents|
    ensures var t := Put(s, i, a); var o := s.agents[i];
            && Tokens(t) == Tokens(s) - o.tokens + a.tokens
            && Unsubtracted(t) == Unsubtracted(s) - PendingOf(o) + PendingOf(a)
            && Reserved(j, t) == Reserved(j, s) - ReservedOf(j, o) + ReservedOf(j, a)
            && Sum(t.agents, RunningOf) == Sum(s.agents, RunningOf) - RunningOf(o) + RunningOf(a)
            && Sum(t.agents, StartedOf) == Sum(s.agents, StartedOf) - StartedOf(o) + StartedOf(a)
  {
    SumPut(s.agents, i, a, TokensOf);
    SumPut(s.agents, i, a, PendingOf);
    SumPut(s.agents, i, a, ReservedBy(j));
    SumPut(s.agents, i, a, RunningOf);
    SumPut(s.agents, i, a, StartedOf);
  }

  /** An agent that has nothing in flight leaves room for one more call. */
  lemma RoomForOne(j: Job, s: Sys, i: nat)
    requires Inv(j, s) && i < |s.agents| && ReservedOf(j, s.agents[i]) == 0
    ensures Reserved(j, s) <= CostOf(j, j.Agents()) - j.maxCost
  {
    var f := ReservedBy(j);
    var filled := s.agents[i := s.agents[i].(phase := InCall)];
    SumPut(s.agents, i, s.agents[i].(phase := InCall), f);
    SumBounds(filled, f, 0, j.maxCost);
  }

  lemma HoldsPermit(s: Sys, i: nat)
    requires i < |s.agents| && Running(s.agents[i])
    ensures Sum(s.agents, RunningOf) >= 1
  {
    var idle := s.agents[i].(phase := Queued);
    SumPut(s.agents, i, idle, RunningOf);
    SumBounds(s.agents[i := idle], RunningOf, 0, 1);
  }

  lemma StepAgents(j: Job, s: Sys, a: Action)
    requires Inv(j, s) && Enabled(j, s, a)
    ensures var t := Apply(j, s, a);
            && t.agents == s.agents[a.i := t.agents[a.i]]
            && t.agents[a.i].id == s.agents[a.i].id && AgentOk(j, t.agents[a.i])
  {
    assert AgentOk(j, s.agents[a.i]);
    CostAdds(j, s.agents[a.i].turns, 1);
    hide CostOf, Sum;
  }

  lemma StepPermits(j: Job, s: Sys, a: Action)
    requires Inv(j, s) && Enabled(j, s, a)
    ensures Apply(j, s, a).permits == Sum(Apply(j, s, a).agents, RunningOf)
  {
    hide CostOf, Sum;
    if Running(s.agents[a.i]) {
      HoldsPermit(s, a.i);
    }
    SumPut(s.agents, a.i, Apply(j, s, a).agents[a.i], RunningOf);
  }

  lemma StepCalls(j: Job, s: Sys, a: Action)
    requires Inv(j, s) && Enabled(j, s, a)
    ensures Apply(j, s, a).calls == Sum(Apply(j, s, a).agents, StartedOf)
  {
    hide CostOf, Sum;
    SumPut(s.agents, a.i, Apply(j, s, a).agents[a.i], StartedOf);
  }

  lemma StepCounter(j: Job, s: Sys, a: Action)
    requires Inv(j, s) && Enabled(j, s, a) && j.budget.Tracked()
    ensures var t := Apply(j, s, a);
            && t.remaining == j.budget.maxTokens - Tokens(t) + Unsubtracted(t)
            && t.remaining - Reserved(j, t) >= 1 - CostOf(j, j.Agents())
  {
    hide CostOf, Sum;
    if ReservedOf(j, s.agents[a.i]) == 0 {
      RoomForOne(j, s, a.i);
    }
    var g := Apply(j, s, a).agents[a.i];
    SumPut(s.agents, a.i, g, TokensOf);
    SumPut(s.agents, a.i, g, PendingOf);
    SumPut(s.agents, a.i, g, ReservedBy(j));
  }

  lemma StepInv(j: Job, s: Sys, a: Action)
    requires Inv(j, s) && Enabled(j, s, a)
    ensures Inv(j, Apply(j, s, a))
  {
    StepAgents(j, s, a);
    StepPermits(j, s, a);
    StepCalls(j, s, a);
    if j.budget.Tracked() {
      StepCounter(j, s, a);
    }
    hide CostOf, Sum, Apply, Tokens, Unsubtracted, Reserved, AgentOk;
  }

  lemma {:induction false} RunInv(j: Job, s: Sys, acts: seq<Action>)
    requires Inv(j, s) && Legal(j, s, acts)
    ensures Inv(j, Run(j, s, acts))
    decreases |acts|
  {
    if acts != [] {
      StepInv(j, s, acts[0]);
      RunInv(j, Apply(j, s, acts[0]), acts[1..]);
    }
  }

  // ---------- the exact worst case ----------

  function Min(a: int, b: int): int {
    if a <= b then a else b
  }

  /** The most tokens any run can report: every agent can overspend by one call of the last token
      the counter held, unless the turn limit stops it first. */
  function WorstCase(j: Job): int {
    var byTurns := CostOf(j, j.Agents() * j.budget.EffectiveMaxTurns());
    if j.budget.Tracked() then Min(j.budget.maxTokens + CostOf(j, j.Agents()) - 1, byTurns) else byTurns
  }

  lemma TokensWithinTurns(j: Job, s: Sys)
    requires Inv(j, s)
    ensures Tokens(s) <= CostOf(j, j.Agents() * j.budget.EffectiveMaxTurns())
  {
    var m := j.budget.EffectiveMaxTurns();
    forall k | 0 <= k < |s.agents| ensures 0 <= s.agents[k].tokens <= CostOf(j, m) {
      assert AgentOk(j, s.agents[k]);
      CostGrows(j, s.agents[k].turns, m);
    }
    CostOfProduct(j, j.Agents(), m);
    SumBounds(s.agents, TokensOf, 0, CostOf(j, m));
  }

  lemma SpendBound(j: Job, acts: seq<Action>)
    requires Legal(j, Init(j), acts)
    ensures Tokens(Run(j, Init(j), acts)) <= WorstCase(j)
  {
    InitInv(j);
    RunInv(j, Init(j), acts);
    var s := Run(j, Init(j), acts);
    TokensWithinTurns(j, s);
    SumMonotone(s.agents, PendingOf, ReservedBy(j));
  }

  // ---------- a run that attains it ----------

  /** All agents stand at the head of their loops with at least one turn left. */
  ghost predicate AllReady(j: Job, s: Sys) {
    && Inv(j, s)
    && (forall k | 0 <= k < |s.agents| ::
          s.agents[k].phase.AtCheck? && s.agents[k].turns < j.budget.EffectiveMaxTurns())
  }

  function SpareTurnsOf(j: Job, a: Agent): int {
    j.budget.EffectiveMaxTurns() - 1 - a.turns
  }

  function SpareBy(j: Job): Agent -> int {
    a => SpareTurnsOf(j, a)
  }

  function SpareTurns(j: Job, s: Sys): int {
    Sum(s.agents, SpareBy(j))
  }

  lemma {:induction false} StartAll(j: Job, k: nat) returns (acts: seq<Action>)
    requires k <= j.Agents()
    ensures Legal(j, Init(j), acts)
    ensures var s := Run(j, Init(j), acts);
            && |s.agents| == j.Agents() && s.permits == k && s.remaining == j.budget.maxTokens
            && (forall i | 0 <= i < |s.agents| ::
                  s.agents[i] == Agent(j.ids[i], if i < k then AtCheck else Queued, 0, 0))
  {
    acts := [];
    if k > 0 {
      acts := StartAll(j, k - 1);
      RunSnoc(j, Init(j), acts, Start(k - 1));
      acts := acts + [Start(k - 1)];
    }
  }

  /** One whole turn of agent `i` that leaves the counter positive. */
  lemma OneTurn(j: Job, s: Sys, i: nat, cost: nat) returns (acts: seq<Action>)
    requires AllReady(j, s) && i < |s.agents| && cost <= j.maxCost
    requires SpareTurnsOf(j, s.agents[i]) > 0
    requires j.budget.Tracked() ==> s.remaining > cost
    ensures Legal(j, s, acts)
    ensures var t := Run(j, s, acts);
            && AllReady(j, t)
            && Tokens(t) == Tokens(s) + cost && SpareTurns(j, t) == SpareTurns(j, s) - 1
            && (j.budget.Tracked() ==> t.remaining == s.remaining - cost)
  {
    RunSnoc(j, s, [], Check(i, false));
    acts := [] + [Check(i, false)];
    RunSnoc(j, s, acts, Answer(i, cost, true));
    acts := acts + [Answer(i, cost, true)];
    RunSnoc(j, s, acts, Deduct(i));
    acts := acts + [Deduct(i)];
    var t := Run(j, s, acts);
    RunInv(j, s, acts);
    assert t.agents == s.agents[i := t.agents[i]];
    SumPut(s.agents, i, t.agents[i], TokensOf);
    SumPut(s.agents, i, t.agents[i], SpareBy(j));
  }

  lemma {:induction false} SomeSpareTurn(j: Job, agents: seq<Agent>) returns (i: nat)
    requires Sum(agents, SpareBy(j)) > 0
    ensures i < |agents| && SpareTurnsOf(j, agents[i]) > 0
  {
    i := 0;
    if SpareTurnsOf(j, agents[0]) <= 0 {
      i := SomeSpareTurn(j, agents[1..]);
      i := i + 1;
    }
  }

  lemma PositiveCost(j: Job, calls: int, amount: nat)
    requires 0 < amount <= CostOf(j, calls)
    ensures calls > 0 && CostOf(j, calls - 1) >= 0 && CostOf(j, calls) == CostOf(j, calls - 1) + j.maxCost
    ensures j.maxCost > 0
  {
    CostAdds(j, calls - 1, 1);
    if calls <= 0 {
      CostGrows(j, calls, 0);
      assert false;
    }
    CostGrows(j, 0, calls - 1);
  }

  lemma NoActions(j: Job, s: Sys)
    ensures Legal(j, s, []) && Run(j, s, []) == s
  {
  }

  /** Spends exactly `amount` while every agent keeps one turn and the counter stays positive. */
  lemma {:induction false} SpendExactly(j: Job, s: Sys, amount: nat) returns (acts: seq<Action>)
    requires AllReady(j, s) && amount <= CostOf(j, SpareTurns(j, s))
    requires j.budget.Tracked() ==> amount < s.remaining
    ensures Legal(j, s, acts)
    ensures var t := Run(j, s, acts);
            && AllReady(j, t) && Tokens(t) == Tokens(s) + amount
            && (j.budget.Tracked() ==> t.remaining == s.remaining - amount)
    decreases amount
  {
    hide CostOf, Sum, Run, Legal, AllReady, Tokens;
    acts := [];
    NoActions(j, s);
    if amount > 0 {
      PositiveCost(j, SpareTurns(j, s), amount);
      var i := SomeSpareTurn(j, s.agents);
      var cost := Min(j.maxCost, amount);
      acts := OneTurn(j, s, i, cost);
      var t := Run(j, s, acts);
      var rest := SpendExactly(j, t, amount - cost);
      RunAppend(j, s, acts, rest);
      acts := acts + rest;
    }
  }

  /** The first `k` agents pass the check before any of them is charged. */
  lemma {:induction false} CheckAll(j: Job, s: Sys, k: nat) returns (acts: seq<Action>)
    requires AllReady(j, s) && k <= |s.agents| && (j.budget.Tracked() ==> s.remaining >= 1)
    ensures Legal(j, s, acts)
    ensures var t := Run(j, s, acts);
            && |t.agents| == |s.agents| && t.remaining == s.remaining && Tokens(t) == Tokens(s)
            && (forall i | 0 <= i < |s.agents| ::
                  t.agents[i] == if i < k then s.agents[i].(phase := InCall) else s.agents[i])
  {
    acts := [];
    if k > 0 {
      acts := CheckAll(j, s, k - 1);
      var t := Run(j, s, acts);
      SumsPut(j, t, k - 1, Apply(j, t, Check(k - 1, false)).agents[k - 1]);
      RunSnoc(j, s, acts, Check(k - 1, false));
      acts := acts + [Check(k - 1, false)];
    }
  }

  /** The first `k` agents get their most expensive and last answer. */
  lemma {:induction false} AnswerAll(j: Job, s: Sys, k: nat) returns (acts: seq<Action>)
    requires k <= |s.agents| && forall i | 0 <= i < |s.agents| :: s.agents[i].phase.InCall?
    ensures Legal(j, s, acts)
    ensures var t := Run(j, s, acts);
            && |t.agents| == |s.agents| && Tokens(t) == Tokens(s) + CostOf(j, k)
            && (forall i | 0 <= i < |s.agents| ::
                  if i < k then t.agents[i].phase == Charged(j.maxCost, false) else t.agents[i] == s.agents[i])
  {
    acts := [];
    if k > 0 {
      acts := AnswerAll(j, s, k - 1);
      var t := Run(j, s, acts);
      var a := Answer(k - 1, j.maxCost, false);
      RunSnoc(j, s, acts, a);
      SumsPut(j, t, k - 1, Apply(j, t, a).agents[k - 1]);
      acts := acts + [a];
      CostAdds(j, k - 1, 1);
    }
  }

  lemma {:induction false} DeductAll(j: Job, s: Sys, k: nat) returns (acts: seq<Action>)
    requires k <= |s.agents|
    requires forall i | 0 <= i < |s.agents| :: s.agents[i].phase == Charged(j.maxCost, false)
    ensures Legal(j, s, acts)
    ensures var t := Run(j, s, acts);
            && |t.agents| == |s.agents| && Tokens(t) == Tokens(s)
            && (forall i | 0 <= i < |s.agents| ::
                  if i < k then t.agents[i].phase.Done? else t.agents[i] == s.agents[i])
  {
    acts := [];
    if k > 0 {
      acts := DeductAll(j, s, k - 1);
      var t := Run(j, s, acts);
      RunSnoc(j, s, acts, Deduct(k - 1));
      SumsPut(j, t, k - 1, Apply(j, t, Deduct(k - 1)).agents[k - 1]);
      acts := acts + [Deduct(k - 1)];
    }
  }

  ghost predicate Quiescent(s: Sys) {
    forall k | 0 <= k < |s.agents| :: s.agents[k].phase.Done?
  }

  /** All agents pass the check on a positive counter, then each spends as much as one call can. */
  lemma Burst(j: Job, s: Sys) returns (acts: seq<Action>)
    requires AllReady(j, s) && (j.budget.Tracked() ==> s.remaining >= 1)
    ensures Legal(j, s, acts)
    ensures var t := Run(j, s, acts); Quiescent(t) && Tokens(t) == Tokens(s) + CostOf(j, j.Agents())
  {
    var n := j.Agents();
    hide CostOf, Sum, AgentOk, Legal, Run, Tokens;
    acts := CheckAll(j, s, n);
    var called := Run(j, s, acts);
    var more := AnswerAll(j, called, n);
    RunAppend(j, s, acts, more);
    acts := acts + more;
    var charged := Run(j, s, acts);
    more := DeductAll(j, charged, n);
    RunAppend(j, s, acts, more);
    acts := acts + more;
  }

  /** Every agent's turns but its last. */
  function AllButOneTurn(j: Job): int {
    j.Agents() * (j.budget.EffectiveMaxTurns() - 1)
  }

  lemma CostOfAllTurns(j: Job)
    ensures CostOf(j, j.Agents() * j.budget.EffectiveMaxTurns()) == CostOf(j, AllButOneTurn(j)) + CostOf(j, j.Agents())
    ensures CostOf(j, AllButOneTurn(j)) >= 0
  {
    var n, m := j.Agents(), j.budget.EffectiveMaxTurns();
    assert n * m == n * (m - 1) + n;
    CostAdds(j, n * (m - 1), n);
    CostGrows(j, 0, n * (m - 1));
    CostAdds(j, 0, 0);
  }

  lemma AllStarted(j: Job) returns (acts: seq<Action>)
    ensures Legal(j, Init(j), acts)
    ensures var s := Run(j, Init(j), acts);
            && AllReady(j, s) && Tokens(s) == 0 && s.remaining == j.budget.maxTokens
            && SpareTurns(j, s) == AllButOneTurn(j)
  {
    acts := StartAll(j, j.Agents());
    InitInv(j);
    RunInv(j, Init(j), acts);
    var s := Run(j, Init(j), acts);
    SumBounds(s.agents, SpareBy(j), j.budget.EffectiveMaxTurns() - 1, j.budget.EffectiveMaxTurns() - 1);
    SumBounds(s.agents, TokensOf, 0, 0);
  }

  /** The bound is exact for every job: some complete run reaches it. */
  lemma WorstCaseAttained(j: Job) returns (acts: seq<Action>)
    ensures Legal(j, Init(j), acts)
    ensures var s := Run(j, Init(j), acts); Quiescent(s) && Tokens(s) == WorstCase(j)
  {
    acts := AllStarted(j);
    var s := Run(j, Init(j), acts);
    CostOfAllTurns(j);
    hide CostOf, Sum, AgentOk, Legal, Run, Tokens, Inv, AllButOneTurn;
    var spare := CostOf(j, AllButOneTurn(j));
    var amount := if j.budget.Tracked() then Min(j.budget.maxTokens - 1, spare) else spare;
    var more := SpendExactly(j, s, amount);
    acts, s := Extend(j, acts, more);
    more := Burst(j, s);
    acts, s := Extend(j, acts, more);
  }

  lemma Extend(j: Job, acts: seq<Action>, more: seq<Action>) returns (all: seq<Action>, s: Sys)
    requires Legal(j, Init(j), acts) && Legal(j, Run(j, Init(j), acts), more)
    ensures all == acts + more && Legal(j, Init(j), all)
    ensures s == Run(j, Init(j), all) == Run(j, Run(j, Init(j), acts), more)
  {
    RunAppend(j, Init(j), acts, more);
    all, s := acts + more, Run(j, Init(j), acts + more);
  }

  /** The overrun documented for the soft check, (agents - 1) calls, covers every run exactly when a
      call costs at most one token or the turn limit bites first. */
  lemma DocumentedOverrun(j: Job)
    requires j.budget.Tracked()
    ensures (forall acts | Legal(j, Init(j), acts) ::
               Tokens(Run(j, Init(j), acts)) - j.budget.maxTokens <= CostOf(j, j.Agents() - 1))
       <==> (j.maxCost <= 1
             || CostOf(j, j.Agents() * j.budget.EffectiveMaxTurns()) - j.budget.maxTokens <= CostOf(j, j.Agents() - 1))
  {
    CostAdds(j, j.Agents() - 1, 1);
    forall acts | Legal(j, Init(j), acts) ensures Tokens(Run(j, Init(j), acts)) <= WorstCase(j) {
      SpendBound(j, acts);
    }
    var worst := WorstCaseAttained(j);
  }

  /** Two agents, a budget of 100 and calls of up to 10 tokens: the comment allows 110, a run spends 119. */
  lemma OverrunIsExceeded() returns (acts: seq<Action>)
    ensures var j := Job(["a", "b"], Budget(100, 10, 2), 10);
            && Legal(j, Init(j), acts) && Tokens(Run(j, Init(j), acts)) == 119
            && j.budget.maxTokens + CostOf(j, j.Agents() - 1) == 110
  {
    var j := Job(["a", "b"], Budget(100, 10, 2), 10);
    assert j.Agents() == 2 && j.budget.EffectiveMaxTurns() == 10;
    acts := WorstCaseAttained(j);
    hide Run, Legal, Tokens;
    assert WorstCase(j) == 119;
  }

  // ---------- what every run keeps ----------

  /** Once the counter is used up it stays so and no model call starts. */
  lemma {:induction false} NoCallOnceSpent(j: Job, s: Sys, acts: seq<Action>)
    requires Legal(j, s, acts) && j.budget.Tracked() && s.remaining <= 0
    ensures var t := Run(j, s, acts); t.remaining <= s.remaining && t.calls == s.calls
    decreases |acts|
  {
    if acts != [] {
      NoCallOnceSpent(j, Apply(j, s, acts[0]), acts[1..]);
    }
  }

  /** What follows a subtraction is decided by the counter it leaves, and only then by whether tools were asked
      for: an answer that uses the budget up is no success. */
  lemma AfterDeduct(j: Job, s: Sys, i: nat)
    requires Enabled(j, s, Deduct(i))
    ensures var t, was := Apply(j, s, Deduct(i)), s.agents[i].phase;
            && t.remaining == (if j.budget.Tracked() then s.remaining - was.cost else s.remaining)
            && (t.agents[i].phase == Done(Exhausted) <==> j.budget.Tracked() && t.remaining <= 0)
            && (t.agents[i].phase == Done(Finished) <==> !(j.budget.Tracked() && t.remaining <= 0) && !was.more)
            && (t.agents[i].phase == AtCheck <==> !(j.budget.Tracked() && t.remaining <= 0) && was.more)
  {
  }

  /** At the head of the loop: the turn limit, then the context, then the counter. */
  lemma AfterCheck(j: Job, s: Sys, i: nat, expired: bool)
    requires Enabled(j, s, Check(i, expired))
    ensures var t, turns := Apply(j, s, Check(i, expired)), s.agents[i].turns;
            && t.remaining == s.remaining
            && (t.agents[i].phase == Done(Finished) <==> turns >= j.budget.EffectiveMaxTurns())
            && (t.agents[i].phase == Done(Cancelled) <==> turns < j.budget.EffectiveMaxTurns() && expired)
            && (t.agents[i].phase == Done(Exhausted) <==>
                  turns < j.budget.EffectiveMaxTurns() && !expired && j.budget.Tracked() && s.remaining <= 0)
            && (t.agents[i].phase == InCall <==>
                  turns < j.budget.EffectiveMaxTurns() && !expired && (j.budget.Tracked() ==> s.remaining > 0))
  {
  }

  predicate SomeExhausted(s: Sys) {
    exists k | 0 <= k < |s.agents| :: s.agents[k].phase == Done(Exhausted)
  }

  /** The budget is used up exactly if some agent says so. */
  predicate SpentShows(j: Job, s: Sys) { SomeExhausted(s) <==> j.budget.Tracked() && s.remaining <= 0 }

  lemma SpentShowsOn(j: Job, s: Sys, a: Action)
    requires SpentShows(j, s) && Enabled(j, s, a)
    ensures SpentShows(j, Apply(j, s, a))
  {
    var t := Apply(j, s, a);
    assert t.agents == s.agents[a.i := t.agents[a.i]];
    if SomeExhausted(s) {
      var k :| 0 <= k < |s.agents| && s.agents[k].phase == Done(Exhausted);
      assert t.agents[k].phase == Done(Exhausted);
    }
    if t.agents[a.i].phase == Done(Exhausted) { assert SomeExhausted(t); }
  }

  lemma {:induction false} SpentShowsAlong(j: Job, s: Sys, acts: seq<Action>)
    requires SpentShows(j, s) && Legal(j, s, acts)
    ensures SpentShows(j, Run(j, s, acts))
    decreases |acts|
  {
    hide Apply, SpentShows;
    if acts != [] {
      SpentShowsOn(j, s, acts[0]);
      SpentShowsAlong(j, Apply(j, s, acts[0]), acts[1..]);
    }
  }

  lemma NobodyExhausted(j: Job)
    ensures SpentShows(j, Init(j))
  {
  }

  /** At every moment of every run: no agent reports a spent budget before it is spent, and the one that spends
      it reports that, not a success. */
  lemma ExhaustionIsReported(j: Job, acts: seq<Action>)
    requires Legal(j, Init(j), acts)
    ensures var s := Run(j, Init(j), acts);
            (exists k | 0 <= k < |s.agents| :: s.agents[k].phase == Done(Exhausted))
            <==> j.budget.Tracked() && s.remaining <= 0
  {
    NobodyExhausted(j);
    SpentShowsAlong(j, Init(j), acts);
  }

  /** When every goroutine has ended the counter holds exactly what the results do not report, each
      result carries its own spec's id, all slots are back, and the calls made fit the turn limit. */
  lemma QuiescentAccounts(j: Job, acts: seq<Action>)
    requires Legal(j, Init(j), acts) && Quiescent(Run(j, Init(j), acts))
    ensures var s := Run(j, Init(j), acts);
            && |s.agents| == j.Agents()
            && (forall k | 0 <= k < |s.agents| :: s.agents[k].id == j.ids[k])
            && (j.budget.Tracked() ==> s.remaining == j.budget.maxTokens - Tokens(s))
            && s.permits == 0 && s.calls <= j.Agents() * j.budget.EffectiveMaxTurns()
  {
    InitInv(j);
    RunInv(j, Init(j), acts);
    var s := Run(j, Init(j), acts);
    SumBounds(s.agents, PendingOf, 0, 0);
    SumBounds(s.agents, RunningOf, 0, 0);
    forall k | 0 <= k < |s.agents| ensures 0 <= StartedOf(s.agents[k]) <= j.budget.EffectiveMaxTurns() {
      assert AgentOk(j, s.agents[k]);
    }
    SumBounds(s.agents, StartedOf, 0, j.budget.EffectiveMaxTurns());
  }

  /** Because the specs are clamped first, a queued agent always finds a free semaphore slot. */
  lemma SemaphoreNeverBlocks(j: Job, acts: seq<Action>, i: nat)
    requires Legal(j, Init(j), acts)
    requires var s := Run(j, Init(j), acts); i < |s.agents| && s.agents[i].phase.Queued?
    ensures Enabled(j, Run(j, Init(j), acts), Start(i))
  {
    InitInv(j);
    RunInv(j, Init(j), acts);
    var s := Run(j, Init(j), acts);
    var busy := s.agents[i].(phase := AtCheck);
    SumPut(s.agents, i, busy, RunningOf);
    SumBounds(s.agents[i := busy], RunningOf, 0, 1);
  }
}
