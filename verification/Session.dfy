/** One message after another, in the form of the code (internal/assistant/assistant.go, lines 229-247): runs of
    the machine in `Consent` in which each message comes to its end before the next one arrives. */
module Session {
  import opened Options
  import opened Tools
  import opened Approvals
  import opened TurnLog
  import opened TurnSpec
  import opened TurnRules
  import opened TurnProofs
  import opened Turn
  import opened Consent

  lemma {:induction false} PathJoin(s: State, a: seq<Action>, t: State, b: seq<Action>, u: State)
    requires Path(s, a, t) && Path(t, b, u)
    ensures Path(s, a + b, u)
    decreases |a|
  {
    hide Next;
    if a == [] {
      assert a + b == b;
    } else {
      PathJoin(Next(s, a[0]), a[1..], t, b, u);
      assert (a + b)[1..] == a[1..] + b;
    }
  }

  lemma ReachesOn(s: State, t: State, u: State)
    requires Reaches(s, t) && Reaches(t, u)
    ensures Reaches(s, u)
  {
    hide Path;
    var a :| Path(s, a, t);
    var b :| Path(t, b, u);
    PathJoin(s, a, t, b, u);
  }

  function Between(pending: Store, h: History): State { State(pending, [], h) }

  function HandlerOf(pending: Store, m: Message, h: History): Handler {
    Handler(|h|, m, Lookup(pending, m.chat))
  }

  /** A message on its own. */
  lemma AloneReaches(pending: Store, m: Message, h: History)
    ensures var x := Concluding(HandlerOf(pending, m, h));
            Reaches(Between(pending, h), Between(Storing(pending - {m.chat}, x), h + [Arrived(m), x]))
  {
    hide Concluding;
    var x := Concluding(HandlerOf(pending, m, h));
    var s := Between(pending, h);
    var s1 := Next(s, Arrive(m));
    assert s1.flight == [HandlerOf(pending, m, h)];
    var t := Next(s1, Conclude(0));
    assert t.flight == [] && t.h == h + [Arrived(m), x];
    assert Path(t, [], t);
    assert [Conclude(0)][1..] == [] && Path(s1, [Conclude(0)], t);
    assert [Arrive(m), Conclude(0)][1..] == [Conclude(0)] && Path(s, [Arrive(m), Conclude(0)], t);
  }

  /** The request a turn leaves in the store is the one its last event calls for. */
  lemma StoredIsStoring(m: Message, at: nat, log: Log, out: Outcome, was: Store)
    ensures Storing(was, Ran(at, m, log, out)) == StoredLast(m.env, m.chat, log, was)
  {
  }

  /** One message: an affirmative reply runs the stored call, a negative one drops it, anything else
      drops it too and is answered by a turn of its own. */
  method HandleMessage(approvals: ApprovalStore, m: Message, ghost h: History) returns (ghost h': History)
    modifies approvals
    ensures |h'| == |h| + 2 && h' == h + [Arrived(m), h'[|h| + 1]]
    ensures Reaches(Between(old(approvals.pending), h), Between(approvals.pending, h'))
    ensures var open := Lookup(old(approvals.pending), m.chat); var x := h'[|h| + 1];
            if open.Some? && m.kind == Affirmative && m.env.CanApprove(open.value.level) then
              && x.Consented? && x.request == open.value && x.e.Attempted? && x.e.call == open.value.call
              && Reported(m.env, false, x.e, m.outcome)
            else if open.Some? && m.kind != Other then x.Declined?
            else x.Ran? && IsTurn(m.env, m.world, m.want, x.log, x.out)
  {
    hide Play, AttemptOf, Justified, EndsPending, Reaches, IsTurn, Reported;
    ghost var hd := HandlerOf(approvals.pending, m, h);
    AloneReaches(approvals.pending, m, h);
    ghost var x := Concluding(hd);
    h' := h + [Arrived(m), x];
    var taken := approvals.Take(m.chat);
    if taken.Some? && m.kind != Other {
      if m.kind == Affirmative && m.env.CanApprove(taken.value.level) {
        var e := ExecuteSkill(m.env, approvals, m.chat, false, Some(taken.value.call.id), taken.value.call, m.outcome);
        assert x == Consented(hd.at, m, taken.value, e);
      }
    } else {
      ghost var was := approvals.pending;
      var out, t := HandleTurn(m.env, m.world, m.want, approvals, m.chat);
      StoredIsStoring(m, hd.at, t.log, out, was);
    }
  }

  /** Any sequence of messages, in any chats: all are served. */
  method HandleAll(approvals: ApprovalStore, messages: seq<Message>) returns (ghost h: History)
    requires approvals.pending == map[]
    modifies approvals
    ensures Reaches(EMPTY, Between(approvals.pending, h))
    ensures Lawful(h) && InStep(approvals.pending, h)
    ensures |h| == 2 * |messages|
    ensures forall k | 0 <= k < |messages| ::
              h[2 * k] == Arrived(messages[k]) && Served(Between(approvals.pending, h), 2 * k)
  {
    hide Reaches, Lawful, InStep, Served;
    h := [];
    Still(EMPTY);
    for k := 0 to |messages|
      invariant Reaches(EMPTY, Between(approvals.pending, h))
      invariant |h| == 2 * k && forall i | 0 <= i < k :: h[2 * i] == Arrived(messages[i])
    {
      ghost var s := Between(approvals.pending, h);
      h := HandleMessage(approvals, messages[k], h);
      ReachesOn(EMPTY, s, Between(approvals.pending, h));
    }
    ReachedIsLawful(Between(approvals.pending, h));
  }

  lemma Still(s: State)
    ensures Reaches(s, s)
  {
    assert Path(s, [], s);
  }

  lemma ReachedIsLawful(s: State)
    requires Reaches(EMPTY, s)
    ensures Lawful(s.h) && InStep(s.pending, s.h)
    ensures forall at | 0 <= at < |s.h| && s.h[at].Arrived? :: InFlight(s.flight, at) || Served(s, at)
  {
    hide Path;
    var actions :| Path(EMPTY, actions, s);
    OverlappingMessages(actions, s);
  }
}
