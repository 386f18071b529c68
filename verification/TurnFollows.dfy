/** The loop of `TurnSpec` is the turn of `TurnRules`. */
module TurnFollows {
  import opened Options
  import opened Tools
  import opened McpEvidence
  import opened Ledger
  import opened TurnLog
  import opened TurnSpec
  import opened TurnRules
  import opened TurnProofs

  /** The effect of one more event on everything the rules read off a history. */
  lemma Snoc(env: Env, log: Log, e: Event)
    ensures Asks(log + [e]) == Asks(log) + if e.Asked? then 1 else 0
    ensures Replies(log + [e]) == Replies(log) + if e.Replied? then 1 else 0
    ensures Tries(log + [e]) == Tries(log) + if e.Attempted? then 1 else 0
    ensures Replanned(log + [e]) == (Replanned(log) || e == Replied([]))
    ensures Refused(log + [e]) == (Refused(log) || e.Rejected?)
    ensures GoesOn(env, log + [e]) == LetsGoOn(env, e)
  {
    hide LetsGoOn;
    var all := log + [e];
    assert all[..|log|] == log;
    assert forall k | 0 <= k < |log| :: all[k] == log[k];
    if Refused(log) {
      var k :| 0 <= k < |log| && log[k].Rejected?;
      assert all[k].Rejected?;
    }
    if e.Rejected? { assert all[|log|].Rejected?; }
  }

  lemma SnocPlace(env: Env, log: Log, e: Event)
    ensures PlaceOf(log + [e]) ==
            match e
            case Asked => Asking(PlaceOf(log).Compacting?)
            case Compacted => Compacting
            case Replied(calls) => Answering(calls, [])
            case _ =>
              var before := PlaceOf(log);
              Answering(if before.Answering? then before.calls else [],
                        (if before.Answering? then before.results else []) + ResultOf(e))
    ensures var place := PlaceOf(log + [e]);
            Exchanged(env, log + [e]) ==
            if ToolEvent(e) && place.Answering? && |place.results| == |place.calls| && LetsGoOn(env, e)
            then Exchanged(env, log) + [Exchange(place.calls, place.results)] else Exchanged(env, log)
  {
    hide LetsGoOn;
    assert (log + [e])[..|log|] == log;
  }

  predicate ToolEvent(e: Event) { e.Rejected? || e.Attempted? || e.Replayed? }

  lemma FollowedSnoc(env: Env, world: World, want: Want, log: Log, e: Event)
    requires Followed(env, world, want, log) && Goes(env, world, want, log, e)
    ensures Followed(env, world, want, log + [e])
  {
    hide Goes;
    var all := log + [e];
    forall k | 0 <= k < |all| ensures Goes(env, world, want, all[..k], all[k]) {
      if k < |log| {
        assert all[..k] == log[..k];
      } else {
        assert all[..k] == log;
      }
    }
  }

  /** What the turn carries beside its history is what the history says. */
  ghost predicate Carries(env: Env, world: World, want: Want, t: Turn) {
    && Followed(env, world, want, t.log)
    && t.asked == Asks(t.log) && t.attempts == Tries(t.log) && t.exchanges == Exchanged(env, t.log)
    && t.tainted == Tainted(t.log) && t.requiredOk == SucceededIn(t.log, want.required) && !t.terminalAttempted
  }

  /** A finished iteration. */
  ghost predicate Settled(env: Env, want: Want, log: Log) {
    var place := PlaceOf(log);
    && place.Answering? && GoesOn(env, log)
    && if place.calls == [] then log != [] && Unmet(env, want, log) && !Replanned(log[..|log| - 1])
       else |place.results| == |place.calls|
  }

  /** The head of iteration `i`. */
  ghost predicate Head(env: Env, world: World, want: Want, t: Turn, i: nat, compressed: bool, replanned: bool,
                       rejected: bool) {
    && Carries(env, world, want, t) && Replies(t.log) == i
    && replanned == Replanned(t.log) && rejected == Refused(t.log)
    && if compressed then PlaceOf(t.log).Compacting? && i < MAX_ITERATIONS
       else if i == 0 then t.log == []
       else Settled(env, want, t.log) && (PlaceOf(t.log).calls == [] ==> i < MAX_ITERATIONS)
  }

  /** At the model call of iteration `i`. */
  ghost predicate Calling(env: Env, world: World, want: Want, t: Turn, i: nat, compressed: bool, replanned: bool,
                          rejected: bool) {
    && Carries(env, world, want, t) && Replies(t.log) == i < MAX_ITERATIONS && t.asked > 0
    && replanned == Replanned(t.log) && rejected == Refused(t.log)
    && PlaceOf(t.log) == Asking(compressed)
  }

  /** One event that is no tool step. */
  lemma Plain(env: Env, world: World, want: Want, t: Turn, e: Event, t': Turn)
    requires Carries(env, world, want, t) && !ToolEvent(e) && Goes(env, world, want, t.log, e)
    requires t'.log == t.log + [e] && t'.asked == t.asked + (if e.Asked? then 1 else 0)
    requires t' == t.(log := t'.log, asked := t'.asked, content := t'.content)
    ensures Carries(env, world, want, t')
  {
    hide Goes, Followed, LetsGoOn, Exchanged, Count, PlaceOf;
    FollowedSnoc(env, world, want, t.log, e);
    Snoc(env, t.log, e);
    SnocPlace(env, t.log, e);
    ReadAlike(t.log, e, want.required);
  }

  lemma ReadAlike(log: Log, e: Event, name: string)
    requires !e.Attempted?
    ensures Tainted(log + [e]) == Tainted(log) && SucceededIn(log + [e], name) == SucceededIn(log, name)
  {
    TaintedSnoc(log, e);
    SucceededSnoc(log, e, name);
  }

  lemma AskGoes(env: Env, world: World, want: Want, t: Turn, i: nat, compressed: bool, replanned: bool, rejected: bool)
    requires Head(env, world, want, t, i, compressed, replanned, rejected) && i < MAX_ITERATIONS
    ensures Calling(env, world, want, AskModel(t), i, compressed, replanned, rejected)
  {
    hide Followed, LetsGoOn, Exchanged, Count, Unmet;
    Plain(env, world, want, t, Asked, AskModel(t));
    hide Goes, PlaceOf, Carries, Settled;
    Snoc(env, t.log, Asked);
    PlaceAtHead(env, world, want, t, i, compressed, replanned, rejected);
    SnocPlace(env, t.log, Asked);
  }

  lemma PlaceAtHead(env: Env, world: World, want: Want, t: Turn, i: nat, compressed: bool, replanned: bool,
                    rejected: bool)
    requires Head(env, world, want, t, i, compressed, replanned, rejected)
    ensures PlaceOf(t.log).Compacting? == compressed
  {
  }

  lemma CompressGoes(env: Env, world: World, want: Want, t: Turn, i: nat, replanned: bool, rejected: bool)
    requires Calling(env, world, want, t, i, false, replanned, rejected) && world.answers(t.asked - 1).Overflow?
    ensures Head(env, world, want, t.(log := t.log + [Compacted]), i, true, replanned, rejected)
  {
    hide Followed, LetsGoOn, Exchanged, Count;
    Plain(env, world, want, t, Compacted, t.(log := t.log + [Compacted]));
    hide Goes, PlaceOf, Carries;
    Snoc(env, t.log, Compacted);
    SnocPlace(env, t.log, Compacted);
  }

  /** After an answer. */
  ghost predicate Told(env: Env, world: World, want: Want, t: Turn, calls: seq<ToolCall>, i: nat, replanned: bool,
                       rejected: bool) {
    && Carries(env, world, want, t) && Replies(t.log) == i + 1 <= MAX_ITERATIONS && t.asked > 0
    && world.answers(t.asked - 1) == Reply(t.content, calls)
    && t.log != [] && replanned == Replanned(t.log[..|t.log| - 1]) && rejected == Refused(t.log)
    && PlaceOf(t.log) == Answering(calls, []) && GoesOn(env, t.log)
  }

  lemma AnswerGoes(env: Env, world: World, want: Want, t: Turn, i: nat, compressed: bool, replanned: bool,
                   rejected: bool)
    requires Calling(env, world, want, t, i, compressed, replanned, rejected) && world.answers(t.asked - 1).Reply?
    ensures var a := world.answers(t.asked - 1);
            Told(env, world, want, Answered(t, a), a.calls, i, replanned, rejected)
  {
    hide Followed, LetsGoOn, Exchanged, Count;
    var a := world.answers(t.asked - 1);
    Plain(env, world, want, t, Replied(a.calls), Answered(t, a));
    ReplyLetsGoOn(env, a.calls);
    hide Goes, PlaceOf, Carries;
    Snoc(env, t.log, Replied(a.calls));
    SnocPlace(env, t.log, Replied(a.calls));
    assert (t.log + [Replied(a.calls)])[..|t.log|] == t.log;
  }

  lemma ReplyLetsGoOn(env: Env, calls: seq<ToolCall>)
    ensures LetsGoOn(env, Replied(calls))
  {
  }

  // ---------- an answer without calls ----------

  lemma ConcludeStops(env: Env, world: World, want: Want, t: Turn, i: nat, replanned: bool, rejected: bool)
    requires Told(env, world, want, t, [], i, replanned, rejected)
    ensures var end := Conclude(env, world, want, t, i, replanned);
            && (end.Some? ==> Stops(env, world, want, t.log, end.value))
            && (end.None? ==> Settled(env, want, t.log) && i + 1 < MAX_ITERATIONS)
  {
    hide Followed, LetsGoOn, Exchanged, Count, Met, SucceededIn, Tainted, PlaceOf;
  }

  lemma ConcludeGoes(env: Env, world: World, want: Want, t: Turn, i: nat, replanned: bool, rejected: bool)
    requires Told(env, world, want, t, [], i, replanned, rejected)
    requires Conclude(env, world, want, t, i, replanned).None?
    ensures Head(env, world, want, t, i + 1, false, true, rejected)
  {
    ConcludeStops(env, world, want, t, i, replanned, rejected);
    ToldIsLast(env, world, want, t, [], i, replanned, rejected);
    hide Carries, Settled, LetsGoOn, Count, Conclude, PlaceOf;
  }

  /** An answer is the last event after it. */
  lemma ToldIsLast(env: Env, world: World, want: Want, t: Turn, calls: seq<ToolCall>, i: nat, replanned: bool,
                   rejected: bool)
    requires Told(env, world, want, t, calls, i, replanned, rejected)
    ensures t.log[|t.log| - 1] == Replied(calls)
    ensures Replanned(t.log) == (replanned || calls == [])
  {
    hide Carries, LetsGoOn, Count;
    AnswerLast(t.log);
    hide PlaceOf;
    var front := t.log[..|t.log| - 1];
    assert t.log == front + [Replied(calls)];
  }

  lemma AnswerLast(log: Log)
    requires log != [] && PlaceOf(log).Answering? && PlaceOf(log).results == []
    ensures log[|log| - 1] == Replied(PlaceOf(log).calls)
  {
    var e := log[|log| - 1];
    assert ToolEvent(e) ==> |ResultOf(e)| == 1;
  }

  // ---------- a refused batch ----------

  /** What a turn keeps through the steps of one answer. */
  ghost predicate Within(t0: Turn, log: Log) {
    && |t0.log| <= |log| && log[..|t0.log|] == t0.log
    && Asks(log) == Asks(t0.log) && Replies(log) == Replies(t0.log) && Replanned(log) == Replanned(t0.log)
  }

  lemma WithinSnoc(env: Env, t0: Turn, log: Log, e: Event)
    requires Within(t0, log) && ToolEvent(e)
    ensures Within(t0, log + [e])
  {
    hide Count;
    Snoc(env, log, e);
    assert (log + [e])[..|t0.log|] == log[..|t0.log|];
  }

  /** After `k` rejections. */
  ghost predicate Rejecting(env: Env, world: World, want: Want, t0: Turn, calls: seq<ToolCall>, k: nat, log: Log)
    requires k <= |calls|
  {
    && Within(t0, log) && |log| == |t0.log| + k && Followed(env, world, want, log)
    && PlaceOf(log) == Answering(calls, Refusals(calls[..k])) && |Refusals(calls[..k])| == k && GoesOn(env, log)
    && Tries(log) == Tries(t0.log) && Tainted(log) == Tainted(t0.log)
    && SucceededIn(log, want.required) == SucceededIn(t0.log, want.required)
    && Refused(log) == (Refused(t0.log) || k > 0)
    && Exchanged(env, log) == (if k == |calls| > 0 then t0.exchanges + [Exchange(calls, Refusals(calls))]
                               else t0.exchanges)
  }

  lemma RejectOne(env: Env, world: World, want: Want, t0: Turn, calls: seq<ToolCall>, k: nat, log: Log)
    requires k < |calls| && Rejecting(env, world, want, t0, calls, k, log)
    requires Mixed(env, calls) && !Refused(t0.log)
    ensures Rejecting(env, world, want, t0, calls, k + 1, log + [Rejected(calls[k])])
  {
    hide Goes, Followed, LetsGoOn, Exchanged, Count, PlaceOf, Mixed, Refused, Tainted, SucceededIn, Refusals,
         Replanned, GoesOn;
    var e := Rejected(calls[k]);
    RefusalsUpTo(calls, k);
    NextRejection(env, world, want, t0, calls, k, log);
    FollowedSnoc(env, world, want, log, e);
    Snoc(env, log, e);
    SnocPlace(env, log, e);
    ReadAlike(log, e, want.required);
    WithinSnoc(env, t0, log, e);
    RejectionLetsGoOn(env, calls[k]);
    if k + 1 == |calls| { assert calls[..k + 1] == calls; }
  }

  lemma NextRejection(env: Env, world: World, want: Want, t0: Turn, calls: seq<ToolCall>, k: nat, log: Log)
    requires k < |calls| && Rejecting(env, world, want, t0, calls, k, log)
    requires Mixed(env, calls) && !Refused(t0.log)
    ensures Goes(env, world, want, log, Rejected(calls[k]))
  {
    hide Followed, LetsGoOn, Exchanged, Count, PlaceOf, Refused, Tainted, SucceededIn, Refusals, CallGoes, Replanned;
    assert log[..|log| - k] == t0.log;
    RepliesFirst(log, calls);
  }

  lemma RepliesFirst(log: Log, calls: seq<ToolCall>)
    requires PlaceOf(log).Answering? && PlaceOf(log).calls == calls != []
    ensures |PlaceOf(log).results| < |log|
  {
    Placed(log);
  }

  /** Results of an answer come after it. */
  lemma {:induction false} Placed(log: Log)
    ensures PlaceOf(log).Answering? ==> |PlaceOf(log).results| <= |log|
    ensures PlaceOf(log).Answering? && PlaceOf(log).calls != [] ==> |PlaceOf(log).results| < |log|
  {
    if log != [] { Placed(log[..|log| - 1]); }
  }

  lemma RejectionLetsGoOn(env: Env, call: ToolCall)
    ensures LetsGoOn(env, Rejected(call))
  {
  }

  lemma RefusalsUpTo(calls: seq<ToolCall>, k: nat)
    requires k < |calls|
    ensures Refusals(calls[..k + 1]) == Refusals(calls[..k]) + ResultOf(Rejected(calls[k]))
    ensures Rejections(calls[..k + 1]) == Rejections(calls[..k]) + [Rejected(calls[k])]
  {
    assert calls[..k + 1][..k] == calls[..k];
  }

  lemma {:induction false} RejectAll(env: Env, world: World, want: Want, t0: Turn, calls: seq<ToolCall>, k: nat)
    requires k <= |calls| && Rejecting(env, world, want, t0, calls, 0, t0.log)
    requires Mixed(env, calls) && !Refused(t0.log)
    ensures Rejecting(env, world, want, t0, calls, k, t0.log + Rejections(calls[..k]))
  {
    hide Rejecting, Mixed, Refused;
    if k == 0 {
      assert t0.log + [] == t0.log;
    } else {
      RejectAll(env, world, want, t0, calls, k - 1);
      RejectOne(env, world, want, t0, calls, k - 1, t0.log + Rejections(calls[..k - 1]));
      RefusalsUpTo(calls, k - 1);
      assert t0.log + Rejections(calls[..k])
          == (t0.log + Rejections(calls[..k - 1])) + [Rejected(calls[k - 1])];
    }
  }

  lemma StartRejecting(env: Env, world: World, want: Want, t: Turn, calls: seq<ToolCall>, i: nat, replanned: bool,
                       rejected: bool)
    requires Told(env, world, want, t, calls, i, replanned, rejected) && calls != []
    ensures Rejecting(env, world, want, t, calls, 0, t.log)
  {
    hide Followed, LetsGoOn, Exchanged, Count, PlaceOf, Tainted, SucceededIn;
    assert calls[..0] == [] && t.log[..|t.log|] == t.log;
  }

  lemma RejectGoes(env: Env, world: World, want: Want, t: Turn, calls: seq<ToolCall>, i: nat, replanned: bool)
    requires Told(env, world, want, t, calls, i, replanned, false) && Mixed(env, calls)
    ensures Head(env, world, want, Reject(t, calls), i + 1, false, replanned, true)
  {
    ToldIsLast(env, world, want, t, calls, i, replanned, false);
    StartRejecting(env, world, want, t, calls, i, replanned, false);
    RejectAll(env, world, want, t, calls, |calls|);
    assert calls[..|calls|] == calls;
    hide Followed, LetsGoOn, Exchanged, Count, PlaceOf, Tainted, SucceededIn, Rejections, Refusals, Mixed, Refused;
  }

  // ---------- a batch ----------

  /** After `k` calls of a batch. */
  ghost predicate Running(env: Env, world: World, want: Want, t0: Turn, t: Turn, calls: seq<ToolCall>, k: nat,
                          results: seq<ToolResult>) {
    && k == |results| <= |calls| && Within(t0, t.log) && Followed(env, world, want, t.log)
    && PlaceOf(t.log) == Answering(calls, results) && GoesOn(env, t.log) && Refused(t.log) == Refused(t0.log)
    && t.asked == Asks(t.log) && t.attempts == Tries(t.log)
    && t.tainted == Tainted(t.log) && t.requiredOk == SucceededIn(t.log, want.required) && !t.terminalAttempted
    && Exchanged(env, t.log) == (if k == |calls| then t.exchanges + [Exchange(calls, results)] else t.exchanges)
  }

  /** How a turn ends by the rules. */
  ghost predicate Finished(env: Env, world: World, want: Want, r: Ended) {
    IsTurn(env, world, want, r.t.log, r.out) && r.t.exchanges == Exchanged(env, r.t.log)
  }

  /** A step within a batch follows the rules. */
  lemma CallStep(env: Env, world: World, want: Want, t0: Turn, t: Turn, calls: seq<ToolCall>, k: nat,
                 results: seq<ToolResult>, e: Event)
    requires k < |calls| && Running(env, world, want, t0, t, calls, k, results) && !Mixed(env, calls)
    requires CallGoes(env, world, want, t.log, calls[k], e)
    ensures Followed(env, world, want, t.log + [e]) && Within(t0, t.log + [e])
    ensures Refused(t.log + [e]) == Refused(t0.log) && GoesOn(env, t.log + [e]) == LetsGoOn(env, e)
    ensures PlaceOf(t.log + [e]) == Answering(calls, results + ResultOf(e)) && |ResultOf(e)| == 1
    ensures Asks(t.log + [e]) == t.asked && Tries(t.log + [e]) == t.attempts + if e.Attempted? then 1 else 0
    ensures Exchanged(env, t.log + [e]) ==
            if k + 1 == |calls| && LetsGoOn(env, e) then t.exchanges + [Exchange(calls, results + ResultOf(e))]
            else t.exchanges
  {
    assert ToolEvent(e) && |ResultOf(e)| == 1 && (e.Rejected? ==> false) by { hide LetsGoOn, Legit, Reported; }
    assert Goes(env, world, want, t.log, e) by { hide PlaceOf, CallGoes, Count, Exchanged; }
    hide Goes, Followed, LetsGoOn, Exchanged, Count, PlaceOf, CallGoes, Refused, Tainted, SucceededIn, Mixed;
    FollowedSnoc(env, world, want, t.log, e);
    Snoc(env, t.log, e);
    SnocPlace(env, t.log, e);
    WithinSnoc(env, t0, t.log, e);
  }

  lemma AttemptGoes(env: Env, world: World, want: Want, t: Turn, call: ToolCall)
    requires t.tainted == Tainted(t.log) && t.attempts == Tries(t.log)
    requires !Replayable(env, t.log, call) && !TooEarly(env, want, t.log, call)
    ensures CallGoes(env, world, want, t.log, call, AttemptOf(env, t.tainted, false, call, world.skills(t.attempts)))
  {
    hide Legit, Reported, AttemptOf, Tainted, Count;
    AttemptIsLegit(env, t.tainted, false, call, world.skills(t.attempts));
  }

  /** One call of a batch: the turn goes on by the rules, or stops by them. */
  lemma CallFollows(env: Env, world: World, want: Want, t0: Turn, t: Turn, calls: seq<ToolCall>, k: nat,
                    results: seq<ToolResult>)
    requires k < |calls| && Running(env, world, want, t0, t, calls, k, results) && !Mixed(env, calls)
    ensures var c := Call(env, world, want, t, calls[k]);
            && (c.end.None? ==> Running(env, world, want, t0, c.t, calls, k + 1, results + [c.result]))
            && (c.end.Some? ==> Finished(env, world, want, Ended(c.end.value, c.t)))
  {
    hide Running, Finished, Call, Mixed, Replayable, TooEarly;
    var call := calls[k];
    if Replayable(env, t.log, call) {
      ReplayFollows(env, world, want, t0, t, calls, k, results);
    } else if TooEarly(env, want, t.log, call) {
      EarlyStops(env, world, want, t0, t, calls, k, results);
    } else {
      AttemptFollows(env, world, want, t0, t, calls, k, results);
    }
  }

  lemma ReplayFollows(env: Env, world: World, want: Want, t0: Turn, t: Turn, calls: seq<ToolCall>, k: nat,
                      results: seq<ToolResult>)
    requires k < |calls| && Running(env, world, want, t0, t, calls, k, results) && !Mixed(env, calls)
    requires Replayable(env, t.log, calls[k])
    ensures var c := Call(env, world, want, t, calls[k]);
            c.end.None? && Running(env, world, want, t0, c.t, calls, k + 1, results + [c.result])
  {
    var e := Replayed(calls[k], Find(Entries(env, t.log), calls[k].name, calls[k].key).value);
    CallStep(env, world, want, t0, t, calls, k, results, e);
    hide Followed, Exchanged, Count, PlaceOf, Refused, Tainted, SucceededIn, Mixed, Find, Entries;
    ReadAlike(t.log, e, want.required);
  }

  lemma EarlyStops(env: Env, world: World, want: Want, t0: Turn, t: Turn, calls: seq<ToolCall>, k: nat,
                   results: seq<ToolResult>)
    requires k < |calls| && Running(env, world, want, t0, t, calls, k, results) && !Mixed(env, calls)
    requires !Replayable(env, t.log, calls[k]) && TooEarly(env, want, t.log, calls[k])
    ensures var c := Call(env, world, want, t, calls[k]);
            c.end.Some? && Finished(env, world, want, Ended(c.end.value, c.t))
  {
    hide Followed, Exchanged, Count, PlaceOf, Refused, Tainted, SucceededIn, Mixed, Find, Entries, LetsGoOn;
  }

  lemma AttemptFollows(env: Env, world: World, want: Want, t0: Turn, t: Turn, calls: seq<ToolCall>, k: nat,
                       results: seq<ToolResult>)
    requires k < |calls| && Running(env, world, want, t0, t, calls, k, results) && !Mixed(env, calls)
    requires !Replayable(env, t.log, calls[k]) && !TooEarly(env, want, t.log, calls[k])
    ensures var c := Call(env, world, want, t, calls[k]);
            && (c.end.None? ==> Running(env, world, want, t0, c.t, calls, k + 1, results + [c.result]))
            && (c.end.Some? ==> Finished(env, world, want, Ended(c.end.value, c.t)))
  {
    hide AttemptOf, Find, Entries, EndOf, Followed, Exchanged, Count, PlaceOf, Refused, Tainted, SucceededIn, Mixed,
         LetsGoOn, Stops, Call, EndsHere, Honest, Replayable, TooEarly, Within, CallGoes, Taints, Succeeds, Replanned;
    var call := calls[k];
    var e := AttemptOf(env, t.tainted, false, call, world.skills(t.attempts));
    AttemptGoes(env, world, want, t, call);
    CallStep(env, world, want, t0, t, calls, k, results, e);
    EndFitsEvent(env, world, want, t, e);
    TaintedSnoc(t.log, e);
    SucceededSnoc(t.log, e, want.required);
    CallAttempts(env, world, want, t, call);
    if EndOf(env, world, e).Some? {
      LastOf(t.log, e);
      AttemptStops(env, world, want, t.log + [e], EndOf(env, world, e).value);
    } else {
      if env.Terminal(e.call.name) { TerminalEnds(env, e); }
    }
  }

  lemma LastOf(log: Log, e: Event)
    ensures (log + [e])[|log + [e]| - 1] == e
  {
  }

  /** What is neither replayed nor too early is attempted. */
  lemma CallAttempts(env: Env, world: World, want: Want, t: Turn, call: ToolCall)
    requires t.requiredOk == SucceededIn(t.log, want.required)
    requires !Replayable(env, t.log, call) && !TooEarly(env, want, t.log, call)
    ensures var e := AttemptOf(env, t.tainted, false, call, world.skills(t.attempts));
            Call(env, world, want, t, call) == Called(Advance(env, want, t, e), e.result, EndOf(env, world, e))
  {
    hide AttemptOf, Find, Entries, EndOf, SucceededIn;
  }

  lemma TerminalEnds(env: Env, e: Event)
    requires e.Attempted? && env.Terminal(e.call.name)
    ensures !LetsGoOn(env, e)
  {
  }

  lemma AttemptStops(env: Env, world: World, want: Want, log: Log, out: Outcome)
    requires log != [] && PlaceOf(log).Answering? && !GoesOn(env, log)
    requires EndOf(env, world, log[|log| - 1]) == Some(out)
    ensures Stops(env, world, want, log, out)
  {
    hide PlaceOf, Boundary;
  }
  /** After a whole batch the turn is at the head of the next iteration. */
  lemma Batched(env: Env, world: World, want: Want, t0: Turn, t: Turn, calls: seq<ToolCall>, results: seq<ToolResult>)
    requires Running(env, world, want, t0, t, calls, |calls|, results) && calls != []
    ensures var t' := t.(exchanges := t.exchanges + [Exchange(calls, results)]);
            && Carries(env, world, want, t') && Settled(env, want, t'.log) && Within(t0, t'.log)
            && Refused(t'.log) == Refused(t0.log) && PlaceOf(t'.log).calls != []
  {
    hide Followed, LetsGoOn, Exchanged, Count, PlaceOf, Tainted, SucceededIn, Refused, Replanned, GoesOn;
  }

  lemma {:induction false} BatchFollows(env: Env, world: World, want: Want, t0: Turn, t: Turn, calls: seq<ToolCall>,
                                        k: nat, results: seq<ToolResult>)
    requires k <= |calls| && calls != [] && !Mixed(env, calls)
    requires Running(env, world, want, t0, t, calls, k, results)
    ensures var b := Batch(env, world, want, t, calls, k, results);
            && (b.end.None? ==> Carries(env, world, want, b.t) && Settled(env, want, b.t.log) && Within(t0, b.t.log)
                                && Refused(b.t.log) == Refused(t0.log) && PlaceOf(b.t.log).Answering?
                                && PlaceOf(b.t.log).calls != [])
            && (b.end.Some? ==> Finished(env, world, want, Ended(b.end.value, b.t)))
    decreases |calls| - k
  {
    hide Carries, Within, Finished, Running, Call, Mixed, Refused, PlaceOf;
    if k == |calls| {
      Batched(env, world, want, t0, t, calls, results);
    } else {
      CallFollows(env, world, want, t0, t, calls, k, results);
      var c := Call(env, world, want, t, calls[k]);
      if c.end.None? {
        BatchFollows(env, world, want, t0, c.t, calls, k + 1, results + [c.result]);
      }
    }
  }

  lemma StartRunning(env: Env, world: World, want: Want, t: Turn, calls: seq<ToolCall>, i: nat, replanned: bool,
                     rejected: bool)
    requires Told(env, world, want, t, calls, i, replanned, rejected) && calls != []
    ensures Running(env, world, want, t, t, calls, 0, [])
  {
    hide Followed, LetsGoOn, Exchanged, Count, PlaceOf, Tainted, SucceededIn;
  }

  // ---------- the loop ----------

  lemma CombinedStops(env: Env, world: World, want: Want, t: Turn, calls: seq<ToolCall>, i: nat, replanned: bool)
    requires Told(env, world, want, t, calls, i, replanned, true) && Mixed(env, calls)
    ensures Finished(env, world, want, Ended(FinishFixed(world, env.message("TranslationCombined"), Combined), t))
  {
    hide Followed, LetsGoOn, Exchanged, Count, PlaceOf, Tainted, SucceededIn, Refused, Replanned, GoesOn;
    assert |calls| > 1;
    hide Mixed;
    assert t.log[..|t.log| - 0] == t.log;
  }

  lemma MixedIsBad(env: Env, calls: seq<ToolCall>)
    requires calls != []
    ensures BadBatch(env, calls) == Mixed(env, calls)
  {
  }

  lemma TextFollows(env: Env, world: World, want: Want, t: Turn, i: nat, replanned: bool, rejected: bool)
    requires Told(env, world, want, t, [], i, replanned, rejected)
    ensures var end := Conclude(env, world, want, t, i, replanned);
            && (end.None? ==> Head(env, world, want, t, i + 1, false, true, rejected))
            && (end.Some? ==> Finished(env, world, want, Ended(end.value, t)))
  {
    ConcludeStops(env, world, want, t, i, replanned, rejected);
    if Conclude(env, world, want, t, i, replanned).None? {
      ConcludeGoes(env, world, want, t, i, replanned, rejected);
    }
    hide Followed, LetsGoOn, Exchanged, Count, PlaceOf, Conclude, Stops, Head, Settled, Refused, Replanned, GoesOn;
  }

  lemma RunFollows(env: Env, world: World, want: Want, t: Turn, calls: seq<ToolCall>, i: nat, replanned: bool,
                   rejected: bool)
    requires Told(env, world, want, t, calls, i, replanned, rejected) && calls != [] && !Mixed(env, calls)
    ensures var b := Batch(env, world, want, t, calls, 0, []);
            && (b.end.None? ==> Head(env, world, want, b.t, i + 1, false, replanned, rejected))
            && (b.end.Some? ==> Finished(env, world, want, Ended(b.end.value, b.t)))
  {
    ToldIsLast(env, world, want, t, calls, i, replanned, rejected);
    StartRunning(env, world, want, t, calls, i, replanned, rejected);
    BatchFollows(env, world, want, t, t, calls, 0, []);
    hide Batch, Carries, Settled, Finished, Running, LetsGoOn, PlaceOf, Count, Mixed, Refused;
  }

  /** What one answer leads to. */
  lemma IterateFollows(env: Env, world: World, want: Want, t: Turn, calls: seq<ToolCall>, i: nat, replanned: bool,
                       rejected: bool)
    requires Told(env, world, want, t, calls, i, replanned, rejected)
    ensures var r := Iterate(env, world, want, t, calls, i, replanned, rejected);
            && (r.end.None? ==> Head(env, world, want, r.t, i + 1, false, r.replanned, r.rejected))
            && (r.end.Some? ==> Finished(env, world, want, Ended(r.end.value, r.t)))
  {
    hide Told, Head, Finished, Reject, Batch, Conclude, HasTerminal, Mixed;
    if calls == [] {
      TextFollows(env, world, want, t, i, replanned, rejected);
    } else {
      MixedIsBad(env, calls);
      if !BadBatch(env, calls) {
        RunFollows(env, world, want, t, calls, i, replanned, rejected);
      } else if rejected {
        CombinedStops(env, world, want, t, calls, i, replanned);
      } else {
        RejectGoes(env, world, want, t, calls, i, replanned);
      }
    }
  }

  lemma GiveUpFollows(env: Env, world: World, want: Want, t: Turn, replanned: bool, rejected: bool)
    requires Head(env, world, want, t, MAX_ITERATIONS, false, replanned, rejected)
    ensures Finished(env, world, want, Ended(GiveUp(env, world, want, t), t))
  {
    hide Followed, LetsGoOn, Exchanged, PlaceOf, Tainted, SucceededIn, Met, Refused, Replanned, Count;
  }

  lemma FailureFollows(env: Env, world: World, want: Want, t: Turn, i: nat, compressed: bool, replanned: bool,
                       rejected: bool)
    requires Calling(env, world, want, t, i, compressed, replanned, rejected)
    requires var a := world.answers(t.asked - 1); a.ProviderError? || (a.Overflow? && compressed)
    ensures Finished(env, world, want, Ended(Error(ProviderFailed), t))
  {
    hide Followed, LetsGoOn, Exchanged, PlaceOf, Tainted, SucceededIn, Refused, Replanned, Count;
  }

  lemma {:induction false} LoopFollows(env: Env, world: World, want: Want, t: Turn, i: nat, compressed: bool,
                                       replanned: bool, rejected: bool)
    requires i <= MAX_ITERATIONS && Head(env, world, want, t, i, compressed, replanned, rejected)
    ensures Finished(env, world, want, Loop(env, world, want, t, i, compressed, replanned, rejected))
    decreases MAX_ITERATIONS - i, !compressed
  {
    hide Head, Told, Finished, Iterate, GiveUp, Calling;
    if i == MAX_ITERATIONS {
      CompressedEarlier(env, world, want, t, compressed, replanned, rejected);
      GiveUpFollows(env, world, want, t, replanned, rejected);
    } else {
      var a := world.answers(t.asked);
      var asked := AskModel(t);
      AskGoes(env, world, want, t, i, compressed, replanned, rejected);
      if a.Overflow? && !compressed {
        CompressGoes(env, world, want, asked, i, replanned, rejected);
        LoopFollows(env, world, want, asked.(log := asked.log + [Compacted]), i, true, replanned, rejected);
      } else if !a.Reply? {
        FailureFollows(env, world, want, asked, i, compressed, replanned, rejected);
      } else {
        AnswerGoes(env, world, want, asked, i, compressed, replanned, rejected);
        IterateFollows(env, world, want, Answered(asked, a), a.calls, i, replanned, rejected);
        var r := Iterate(env, world, want, Answered(asked, a), a.calls, i, replanned, rejected);
        if r.end.None? {
          LoopFollows(env, world, want, r.t, i + 1, false, r.replanned, r.rejected);
        }
      }
    }
  }

  lemma CompressedEarlier(env: Env, world: World, want: Want, t: Turn, compressed: bool, replanned: bool,
                          rejected: bool)
    requires Head(env, world, want, t, MAX_ITERATIONS, compressed, replanned, rejected)
    ensures !compressed
  {
  }

  lemma StartsAtHead(env: Env, world: World, want: Want)
    ensures Head(env, world, want, START, 0, false, false, false)
  {
  }

  /** The main theorem: whatever the model answers and the skills do, the loop is the one turn the rules allow. */
  lemma PlayFollows(env: Env, world: World, want: Want)
    ensures Finished(env, world, want, Play(env, world, want))
  {
    hide Finished, Head;
    StartsAtHead(env, world, want);
    LoopFollows(env, world, want, START, 0, false, false, false);
  }

  /** There is a turn for every model and every skills, and only one. */
  lemma TheTurn(env: Env, world: World, want: Want, log: Log, out: Outcome)
    ensures IsTurn(env, world, want, log, out) <==>
            log == Play(env, world, want).t.log && out == Play(env, world, want).out
  {
    hide IsTurn;
    PlayFollows(env, world, want);
    if IsTurn(env, world, want, log, out) {
      var r := Play(env, world, want);
      OnlyOneTurn(env, world, want, log, out, r.t.log, r.out);
    }
  }

  /** An overflow at the first call is recovered from. */
  lemma AnOverflowIsRecovered(env: Env, world: World, text: string)
    requires world.answers(0).Overflow? && world.answers(1) == Reply(text, [])
    ensures Play(env, world, Want("", "")).out == Final(world.hook(text))
    ensures Play(env, world, Want("", "")).t.log == [Asked, Compacted, Asked, Replied([])]
  {
  }
}
