/** Final answers accepted without a real execution, and with them the exact limits of the evidence gate
    (internal/assistant/assistant.go, lines 713-730 and 758-777; internal/assistant/mcp_grounding.go). */
module Unbacked {
  import opened Options
  import opened Tools
  import opened McpEvidence
  import opened Ledger
  import opened TurnLog
  import opened TurnSpec
  import opened Evidence

  /** A registry with just these skills, none of them terminal or subject to consent. */
  function Setting(usable: set<string>, separate: set<string>): (env: Env)
    ensures env.Speaks()
  {
    Env(usable, usable, {}, {}, {}, separate, true, false, s => None, s => "", (n, c) => "e", k => "m")
  }

  // ---------- a call that fails and is repeated ----------

  /** A model that makes the same call twice, then reports; bodies come out as given. */
  function Insistent(call: ToolCall, outcome: SkillOutcome): World {
    World(n => if n < 2 then Reply("", [call]) else Reply("done", []), n => outcome, s => s, true)
  }

  /** What trying the call comes to: an error that lets the turn go on. */
  predicate FailsAlone(env: Env, call: ToolCall, outcome: SkillOutcome) {
    var e := AttemptOf(env, false, false, call, outcome);
    && e.result.isError && !e.result.pending && !Taints(e) && LetsGoOn(env, e)
    && call.name !in env.separate && call.key != "" && !env.Terminal(call.name)
  }

  /** The result of the repeated call. */
  function Replay(env: Env, call: ToolCall, outcome: SkillOutcome): ToolResult {
    ToolResult(call.id, AttemptOf(env, false, false, call, outcome).result.content, false, false, false)
  }

  lemma NothingRecorded(env: Env, log: Log)
    requires |log| == 2 && !log[0].Attempted? && !log[1].Attempted?
    ensures Entries(env, log) == []
  {
    var front := log[..1];
    assert front[..0] == [];
    assert EntryOf(env, log[0]) == [] && EntryOf(env, log[1]) == [];
    assert Entries(env, front[..0]) == [] && Entries(env, front) == [] + [];
    assert Entries(env, log) == Entries(env, front) + [];
  }

  lemma EmptyLedger(name: string)
    ensures Find([], name, "k").None?
  {
  }

  /** The first answer: the call fails, and the ledger remembers it. */
  lemma FirstCall(env: Env, call: ToolCall, outcome: SkillOutcome, want: Want, t: Turn)
    requires FailsAlone(env, call, outcome)
    requires t.log == [Asked, Replied([call])] && !t.tainted && t.exchanges == []
    ensures var b := Batch(env, Insistent(call, outcome), want, t, [call], 0, []);
            var e := AttemptOf(env, false, false, call, outcome);
            && b.end.None? && b.t.log == t.log + [e] && b.t.asked == t.asked && |b.t.exchanges| == 1
            && Entries(env, b.t.log) == [Entry(call.name, call.key, e.result.content, true)]
  {
    hide AttemptOf, Boundary;
    var e := AttemptOf(env, false, false, call, outcome);
    NothingRecorded(env, t.log);
    var c := Call(env, Insistent(call, outcome), want, t, call);
    assert c.end.None? && c.t.log == t.log + [e];
    assert (t.log + [e])[..2] == t.log;
    assert [call][0] == call;
    assert Batch(env, Insistent(call, outcome), want, c.t, [call], 1, [c.result]).end.None?;
  }

  /** The second answer: the same call is served from the ledger, as a success. */
  lemma SecondCall(env: Env, call: ToolCall, outcome: SkillOutcome, want: Want, t: Turn)
    requires FailsAlone(env, call, outcome)
    requires Entries(env, t.log) == [Entry(call.name, call.key, Replay(env, call, outcome).content, true)]
    ensures var b := Batch(env, Insistent(call, outcome), want, t, [call], 0, []);
            && b.end.None? && b.t.log == t.log + [Replayed(call, Replay(env, call, outcome).content)]
            && b.t.asked == t.asked
            && b.t.exchanges == t.exchanges + [Exchange([call], [Replay(env, call, outcome)])]
  {
    hide AttemptOf, Boundary;
    var c := Call(env, Insistent(call, outcome), want, t, call);
    assert c.end.None? && c.t.log == t.log + [Replayed(call, Replay(env, call, outcome).content)];
    assert [call][0] == call;
    assert [] + [c.result] == [c.result];
    assert Batch(env, Insistent(call, outcome), want, c.t, [call], 1, [c.result]).end.None?;
  }

  lemma StillThere(env: Env, t: Turn, call: ToolCall)
    ensures Entries(env, Answered(AskModel(t), Reply("", [call])).log) == Entries(env, t.log)
  {
    var l1 := t.log + [Asked];
    assert l1[..|t.log|] == t.log;
    var l2 := l1 + [Replied([call])];
    assert l2[..|l1|] == l1;
    assert Entries(env, t.log) + [] == Entries(env, t.log);
  }

  lemma PlayThree(env: Env, world: World, want: Want, call: ToolCall, t1: Turn, t2: Turn, t3: Turn, t4: Turn, t5: Turn)
    requires world.answers(0) == world.answers(1) == Reply("", [call]) && world.answers(2) == Reply("done", [])
    requires world.hook("done") == "done" && want.required == "" && want.mcp != ""
    requires t1 == Answered(AskModel(START), world.answers(0))
    requires Batch(env, world, want, t1, [call], 0, []) == Batched(t2, None) && t2.asked == 1
    requires t3 == Answered(AskModel(t2), world.answers(1))
    requires Batch(env, world, want, t3, [call], 0, []) == Batched(t4, None) && t4.asked == 2
    requires t5 == Answered(AskModel(t4), world.answers(2))
    requires Met(env, want.mcp, t5.exchanges) && !BadBatch(env, [call])
    ensures Play(env, world, want) == Ended(Final("done"), t5)
  {
    hide Batch, Met, BadBatch;
    assert Loop(env, world, want, t4, 2, false, false, false) == Ended(Final("done"), t5);
    assert Loop(env, world, want, t2, 1, false, false, false) == Loop(env, world, want, t4, 2, false, false, false);
  }

  /** A failing call that the ledger may replay, and whose replay meets the requirement, is enough: the text
      is accepted, and no attempt of the turn succeeded. */
  lemma FooledByRepetition(env: Env, call: ToolCall, outcome: SkillOutcome, required: string)
    requires required != "" && FailsAlone(env, call, outcome)
    requires MetIn(env, required, Exchange([call], [Replay(env, call, outcome)]))
    ensures var r := Play(env, Insistent(call, outcome), Want("", required));
            && r.out == Final("done") && DistinctIds(Insistent(call, outcome))
            && (forall k | 0 <= k < |r.t.log| && r.t.log[k].Attempted? :: r.t.log[k].result.isError)
  {
    hide MetIn, Batch, Play, Entries, AttemptOf, Boundary;
    var world, want := Insistent(call, outcome), Want("", required);
    assert !BadBatch(env, [call]);
    var t1 := Answered(AskModel(START), world.answers(0));
    assert t1.log == [Asked, Replied([call])];
    FirstCall(env, call, outcome, want, t1);
    var t2 := Batch(env, world, want, t1, [call], 0, []).t;
    var t3 := Answered(AskModel(t2), world.answers(1));
    StillThere(env, t2, call);
    SecondCall(env, call, outcome, want, t3);
    var t4 := Batch(env, world, want, t3, [call], 0, []).t;
    var t5 := Answered(AskModel(t4), world.answers(2));
    assert MetIn(env, required, t5.exchanges[1]);
    PlayThree(env, world, want, call, t1, t2, t3, t4, t5);
  }

  lemma ErrorsAreNoEvidence(env: Env, world: World, want: Want)
    requires Play(env, world, want).out.Final?
    requires forall k | 0 <= k < |Play(env, world, want).t.log| && Play(env, world, want).t.log[k].Attempted? ::
               Play(env, world, want).t.log[k].result.isError
    ensures !Backed(env, world, want)
  {
    hide Play;
  }

  // ---------- the two requirements that name no dispatcher ----------

  const ALONE := Setting({"mcp_connections"}, {"mcp_connections"})

  /** A tool that does not exist, and still meets the requirement once it counts as a success. */
  function UnknownTool(required: string): ToolCall {
    ToolCall("1", if required == "metadata" then "mcp_x" else required, "k")
  }

  lemma OneCallMeets(env: Env, required: string, call: ToolCall, result: ToolResult)
    requires Satisfies(env, required, call, result)
    ensures MetIn(env, required, Exchange([call], [result]))
  {
    var ex := Exchange([call], [result]);
    assert Satisfies(env, required, ex.calls[0], ex.results[0]);
  }

  lemma UnknownFails(required: string)
    requires Generic(required)
    ensures FailsAlone(ALONE, UnknownTool(required), Output("", false))
    ensures var call := UnknownTool(required);
            MetIn(ALONE, required, Exchange([call], [Replay(ALONE, call, Output("", false))]))
    ensures Registry(ALONE) && Demandable(ALONE, required)
  {
    hide RemoteAllowed;
    var call := UnknownTool(required);
    assert call.name != "mcp_connections";
    OneCallMeets(ALONE, required, call, Replay(ALONE, call, Output("", false)));
  }

  /** A model that twice calls a tool that does not exist has its text accepted as the report of an
      invocation, or of a look at the metadata. */
  lemma UnknownToolIsEvidence(required: string)
    requires Generic(required)
    ensures var world := Insistent(UnknownTool(required), Output("", false));
            && Registry(ALONE) && Demandable(ALONE, required) && DistinctIds(world)
            && Play(ALONE, world, Want("", required)).out == Final("done") && !Backed(ALONE, world, Want("", required))
  {
    hide Registry, Demandable, Play, Backed, FailsAlone, MetIn;
    UnknownFails(required);
    hide Generic;
    FooledByRepetition(ALONE, UnknownTool(required), Output("", false), required);
    ErrorsAreNoEvidence(ALONE, Insistent(UnknownTool(required), Output("", false)), Want("", required));
  }

  // ---------- a dispatcher whose calls could be replayed ----------

  /** The opt-out of the dispatchers is needed: without it a dispatcher that fails and is called again would
      be taken for a success, although the ids are distinct. */
  lemma TheOptOutIsNeeded(required: string)
    requires Dispatcher(required) && !Guarded(required)
    ensures var env := Setting({"mcp_connections", required}, {});
            var world := Insistent(ToolCall("1", required, "k"), Broken("c", false));
            && env.usable <= env.registered && Demandable(env, required) && DistinctIds(world)
            && Play(env, world, Want("", required)).out == Final("done") && !Backed(env, world, Want("", required))
  {
    var env, call := Setting({"mcp_connections", required}, {}), ToolCall("1", required, "k");
    NamesAreSomething(required);
    hide RemoteAllowed, Dispatcher, Guarded, Play, Backed, Generic;
    assert FailsAlone(env, call, Broken("c", false)) by { hide Invocation; }
    OneCallMeets(env, required, call, Replay(env, call, Broken("c", false)));
    FooledByRepetition(env, call, Broken("c", false), required);
    ErrorsAreNoEvidence(env, Insistent(call, Broken("c", false)), Want("", required));
  }

  // ---------- a dispatcher that shares an id ----------

  const CLOCK := ToolCall("1", "datetime", "k")

  /** One answer with two calls under one id: the dispatcher fails, the clock does not. */
  function Borrowing(required: string): World {
    World(n => if n == 0 then Reply("", [ToolCall("1", required, "k"), CLOCK]) else Reply("done", []),
          n => if n == 0 then Broken("c", false) else Output("now", false), s => s, true)
  }

  function WithClock(required: string): Env {
    Setting({"mcp_connections", required, "datetime"}, {"mcp_connections", required})
  }

  lemma BorrowedBatch(required: string, want: Want, t: Turn) returns (b: Batched)
    requires Dispatcher(required) && !Guarded(required) && required != "datetime" && want.required == ""
    requires t.log == [Asked, Replied([ToolCall("1", required, "k"), CLOCK])] && !t.tainted
    requires t.exchanges == [] && t.attempts == 0
    ensures var call := ToolCall("1", required, "k");
            && b == Batch(WithClock(required), Borrowing(required), want, t, [call, CLOCK], 0, [])
            && b.end.None? && b.t.asked == t.asked && |b.t.log| == 4 && b.t.log[..2] == t.log
            && b.t.log[2].Attempted? && b.t.log[2].result.isError
            && b.t.log[3].Attempted? && b.t.log[3].call == CLOCK
            && b.t.exchanges == [Exchange([call, CLOCK], [ToolResult("1", "e", true, false, false),
                                                          ToolResult("1", "now", false, false, false)])]
  {
    var env, world, call := WithClock(required), Borrowing(required), ToolCall("1", required, "k");
    NamesAreSomething(required);
    hide RemoteAllowed, Dispatcher, Guarded, Generic, Invocation, Entries, Find;
    assert !Invocation("datetime") by { ClockIsNoInvocation(); }
    NothingRecorded(env, t.log);
    assert Find([], required, "k").None? by { EmptyLedger(required); }
    var c1 := Call(env, world, want, t, call);
    assert c1.end.None? && c1.result == ToolResult("1", "e", true, false, false);
    OtherEntry(env, c1.t.log, t.log, call);
    var c2 := Call(env, world, want, c1.t, CLOCK);
    assert c2.end.None? && c2.result == ToolResult("1", "now", false, false, false);
    b := Batch(env, world, want, t, [call, CLOCK], 0, []);
    LastCall(env, world, want, c1.t, [call, CLOCK], [c1.result], c2);
    assert [] + [c1.result] == [c1.result];
    assert c2.t.exchanges == [] && [c1.result] + [c2.result] == [c1.result, c2.result];
    assert b == Batch(env, world, want, c1.t, [call, CLOCK], 1, [c1.result]);
  }

  lemma ClockIsNoInvocation()
    ensures !Invocation("datetime") && "datetime" != ACTION
  {
  }

  lemma OtherEntry(env: Env, log: Log, before: Log, call: ToolCall)
    requires Entries(env, before) == [] && |log| == |before| + 1 && log[..|before|] == before
    requires log[|before|].Attempted? && log[|before|].call == call && call.name != "datetime"
    ensures Find(Entries(env, log), "datetime", "k").None?
  {
    hide Find;
    var entries := EntryOf(env, log[|before|]);
    assert Entries(env, log) == Entries(env, before) + entries;
    assert Entries(env, log) == [entries[0]];
    NoneOfIt(entries[0], "datetime", "k");
  }

  lemma NoneOfIt(entry: Entry, name: string, key: string)
    requires entry.name != name
    ensures Find([entry], name, key).None?
  {
    assert [entry][1..] == [];
  }

  lemma LastCall(env: Env, world: World, want: Want, t: Turn, calls: seq<ToolCall>, results: seq<ToolResult>, c: Called)
    requires |calls| == 2 && |results| == 1 && c == Call(env, world, want, t, calls[1]) && c.end.None?
    ensures Batch(env, world, want, t, calls, 1, results)
            == Batched(c.t.(exchanges := c.t.exchanges + [Exchange(calls, results + [c.result])]), None)
  {
    hide Call;
  }

  /** The turn: the batch, and then the accepted report. */
  lemma BorrowedTurn(required: string)
    requires Dispatcher(required) && !Guarded(required) && required != "" && required != "datetime"
    ensures var r := Play(WithClock(required), Borrowing(required), Want("", required));
            && r.out == Final("done") && |r.t.log| == 6
            && (forall k | k in {0, 1, 4, 5} :: !r.t.log[k].Attempted?)
            && r.t.log[2].Attempted? && r.t.log[2].result.isError
            && r.t.log[3].Attempted? && r.t.log[3].call == CLOCK
  {
    hide Play, Dispatcher, Guarded, Met, BadBatch, Batch;
    var env, world, want := WithClock(required), Borrowing(required), Want("", required);
    var call := ToolCall("1", required, "k");
    var t1 := Answered(AskModel(START), world.answers(0));
    assert t1.log == [Asked, Replied([call, CLOCK])];
    var b := BorrowedBatch(required, want, t1);
    var t2 := Answered(AskModel(b.t), world.answers(1));
    BorrowedMet(required, t2.exchanges);
    NotBad(required);
    PlayTwo(env, world, want, [call, CLOCK], t1, b.t, t2);
    assert t2.log == b.t.log + [Asked] + [Replied([])];
    assert t2.log[0] == t1.log[0] && t2.log[1] == t1.log[1];
  }

  /** A provider that gives two calls one id lets a failed dispatcher borrow the success of another tool. */
  lemma SharedIdIsEvidence(required: string)
    requires Dispatcher(required) && !Guarded(required)
    ensures var env, world := WithClock(required), Borrowing(required);
            && Registry(env) && Demandable(env, required)
            && Play(env, world, Want("", required)).out == Final("done") && !Backed(env, world, Want("", required))
  {
    var env, world, want := WithClock(required), Borrowing(required), Want("", required);
    NamesAreSomething(required);
    ClockIsNoDispatcher();
    ClockSetting(required);
    hide Registry, Demandable, Play, Backed, Dispatcher, Generic, Guarded;
    BorrowedTurn(required);
    NoneIsReal(env, required, Play(env, world, want).t.log);
    NotBacked(env, world, want);
  }

  lemma ClockSetting(required: string)
    requires Dispatcher(required)
    ensures Registry(WithClock(required)) && Demandable(WithClock(required), required)
  {
    ClockIsNoDispatcher();
    hide Dispatcher;
  }

  lemma ClockIsNoDispatcher()
    ensures !Dispatcher("datetime")
  {
  }

  lemma NotBad(required: string)
    ensures !BadBatch(WithClock(required), [ToolCall("1", required, "k"), CLOCK])
  {
  }

  lemma BorrowedMet(required: string, exchanges: seq<Exchange>)
    requires exchanges == [Exchange([ToolCall("1", required, "k"), CLOCK],
                                    [ToolResult("1", "e", true, false, false),
                                     ToolResult("1", "now", false, false, false)])]
    ensures Met(WithClock(required), required, exchanges)
  {
    var ex := exchanges[0];
    assert Satisfies(WithClock(required), required, ex.calls[0], ex.results[1]);
    assert MetIn(WithClock(required), required, ex);
  }

  lemma PlayTwo(env: Env, world: World, want: Want, calls: seq<ToolCall>, t1: Turn, t2: Turn, t3: Turn)
    requires world.answers(0) == Reply("", calls) && calls != [] && world.answers(1) == Reply("done", [])
    requires world.hook("done") == "done" && want.required == "" && want.mcp != ""
    requires t1 == Answered(AskModel(START), world.answers(0))
    requires Batch(env, world, want, t1, calls, 0, []) == Batched(t2, None) && t2.asked == 1
    requires t3 == Answered(AskModel(t2), world.answers(1))
    requires Met(env, want.mcp, t3.exchanges) && !BadBatch(env, calls)
    ensures Play(env, world, want) == Ended(Final("done"), t3)
  {
    hide Batch, Met, BadBatch;
    assert Loop(env, world, want, t2, 1, false, false, false) == Ended(Final("done"), t3);
  }

  lemma NoneIsReal(env: Env, required: string, log: Log)
    requires Dispatcher(required) && required != "datetime" && |log| == 6
    requires forall k | k in {0, 1, 4, 5} :: !log[k].Attempted?
    requires log[2].Attempted? && log[2].result.isError && log[3].Attempted? && log[3].call == CLOCK
    ensures forall k | 0 <= k < |log| :: !RealEvidence(env, required, log[k])
  {
    NamesAreSomething(required);
    ClockIsNoInvocation();
    hide Dispatcher, Invocation;
    forall k | 0 <= k < |log| ensures !RealEvidence(env, required, log[k]) {
      assert k in {0, 1, 4, 5} || k == 2 || k == 3;
    }
  }

  lemma NotBacked(env: Env, world: World, want: Want)
    requires Play(env, world, want).out.Final?
    requires forall k | 0 <= k < |Play(env, world, want).t.log| ::
               !RealEvidence(env, want.mcp, Play(env, world, want).t.log[k])
    ensures !Backed(env, world, want)
  {
    hide Play, RealEvidence;
  }

  // ---------- the exact limits ----------

  ghost predicate AlwaysBacked(required: string, distinct: bool) {
    forall env: Env, world: World, want: Want
      | Registry(env) && Demandable(env, required) && want.mcp == required && (distinct ==> DistinctIds(world)) ::
      Backed(env, world, want)
  }

  /** Whatever the provider answers, a final text is backed by a real execution in every turn exactly for the
      three invocations and for actions on a connection. */
  lemma EvidenceIsReal(required: string)
    requires Generic(required) || Dispatcher(required)
    ensures AlwaysBacked(required, false) <==> Guarded(required)
  {
    hide Registry, Demandable, Backed, DistinctIds, Play;
    if Guarded(required) {
      forall env: Env, world: World, want: Want | Registry(env) && Demandable(env, required) && want.mcp == required
        ensures Backed(env, world, want)
      {
        SpeaksUp(env);
        WatchedIsBacked(env, world, want);
      }
    } else if Dispatcher(required) {
      SharedIdIsEvidence(required);
      assert !Backed(WithClock(required), Borrowing(required), Want("", required));
    } else {
      UnknownToolIsEvidence(required);
      assert !Backed(ALONE, Insistent(UnknownTool(required), Output("", false)), Want("", required));
    }
  }

  /** When the provider gives the calls of an answer ids of their own, it is backed exactly for the
      dispatchers asked for by name: an unspecified invocation or look at the metadata can still be met by
      repeating a call of a tool that does not exist. */
  lemma EvidenceIsRealWithDistinctIds(required: string)
    requires Generic(required) || Dispatcher(required)
    ensures AlwaysBacked(required, true) <==> Dispatcher(required)
  {
    hide Registry, Demandable, Backed, DistinctIds, Play, Guarded;
    if Dispatcher(required) {
      forall env: Env, world: World, want: Want
        | Registry(env) && Demandable(env, required) && want.mcp == required && DistinctIds(world)
        ensures Backed(env, world, want)
      {
        NamedIsBacked(env, world, want);
      }
    } else {
      UnknownToolIsEvidence(required);
      assert !Backed(ALONE, Insistent(UnknownTool(required), Output("", false)), Want("", required));
    }
  }

  lemma SpeaksUp(env: Env)
    requires Registry(env)
    ensures env.Speaks()
  {
  }
}
