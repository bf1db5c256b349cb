/** The round-scheduling loop of `SmartGroupChat`: a group chat that counts
    rounds, runs one speaker per round, broadcasts a reasoning prompt to every
    agent once the round counter reaches a configured trigger, and lets an
    operator interrupt the loop to speak as the admin agent or to end it.

    The group-chat library underneath is not visible; each of its calls is a
    field of `Library`, an arbitrary total function the proofs know nothing
    about.  The pure definitions come first (`Broadcast`, `Round`, `Step`,
    `Loop`, `RunOutcome`); the class `SmartGroupChat` then runs the same
    computation step by step on its fields and is proved equal to them. */
module SmartChat {
  import opened Wrappers
  import opened Chat
  import Text

  /** The library calls the loop depends on. */
  datatype Library = Library(
    /** first component of `_prepare_and_select_agents(last_speaker)` */
    selectSpeaker: (Agent, seq<Message>) -> Option<Agent>,
    /** the entries the library's `run_round(speaker, message)` appends */
    baseRound: (Agent, Option<string>, seq<Message>) -> seq<Message>,
    /** `next_agent(speaker)` */
    nextAgent: Agent -> Option<Agent>,
    /** `agent_by_name(name)` */
    agentByName: string -> Option<Agent>,
    /** `introductions_msg()` */
    introductionsMsg: string,
    /** the class constant `DEFAULT_INTRO_MSG` */
    defaultIntroMsg: string,
    /** `agent.generate_reply(messages)` */
    generateReply: (Agent, seq<Message>) -> Reply,
    /** the entry `append(reply, agent)` adds */
    asEntry: (Reply, Agent) -> Message)

  /** The chat's configuration: fields fixed for the lifetime of a chat. */
  datatype Config = Config(
    agents: seq<Agent>,
    maxRound: int,
    adminName: string,
    sendIntroductions: bool,
    triggerReasoningRound: Option<int>,
    lib: Library)

  // ---------------------------------------------------------------------
  // Introduction

  predicate IsIntroduction(lib: Library, m: Message) {
    m.role == "system" && Text.StartsWith(m.content, lib.defaultIntroMsg)
  }

  /** Some system message of the history already starts with the intro marker. */
  predicate HasIntroduction(lib: Library, msgs: seq<Message>) {
    exists i :: 0 <= i < |msgs| && IsIntroduction(lib, msgs[i])
  }

  function IntroductionMessage(lib: Library): Message {
    Message("system", lib.introductionsMsg, None)
  }

  /** The history after the conditional introduction at the start of `run`. */
  function WithIntroduction(st: Config, msgs: seq<Message>): (r: seq<Message>)
    ensures |r| == |msgs| + 1 <==> st.sendIntroductions && !HasIntroduction(st.lib, msgs)
    ensures |msgs| <= |r| <= |msgs| + 1
    ensures r[|r| - |msgs|..] == msgs
    ensures |r| == |msgs| + 1 ==> r[0] == IntroductionMessage(st.lib)
  {
    if st.sendIntroductions && !HasIntroduction(st.lib, msgs)
    then [IntroductionMessage(st.lib)] + msgs
    else msgs
  }

  /** When the generated introduction carries the marker the check looks for,
      a second `run` never inserts it again. */
  lemma WithIntroduction_Idempotent(st: Config, msgs: seq<Message>)
    requires Text.StartsWith(st.lib.introductionsMsg, st.lib.defaultIntroMsg)
    ensures WithIntroduction(st, WithIntroduction(st, msgs)) == WithIntroduction(st, msgs)
  {
  }

  // ---------------------------------------------------------------------
  // Reasoning broadcast

  /** `trigger_reasoning`: every agent, in list order, is asked for a reply
      given the history as it stands at its turn; each truthy reply is
      appended. */
  function Broadcast(lib: Library, agents: seq<Agent>, msgs: seq<Message>): (r: seq<Message>)
    ensures msgs <= r
    ensures |r| <= |msgs| + |agents|
    decreases |agents|
  {
    if agents == [] then msgs
    else
      var reply := lib.generateReply(agents[0], msgs);
      Broadcast(lib, agents[1..], if Truthy(reply) then msgs + [lib.asEntry(reply, agents[0])] else msgs)
  }

  /** One agent's turn: its reply to the history as it stands is appended
      when truthy. */
  function Ask(lib: Library, agent: Agent, msgs: seq<Message>): seq<Message> {
    var reply := lib.generateReply(agent, msgs);
    if Truthy(reply) then msgs + [lib.asEntry(reply, agent)] else msgs
  }

  /** Broadcasting to `a + b` is broadcasting to `a`, then to `b`. */
  lemma {:induction false} Broadcast_Concat(lib: Library, a: seq<Agent>, b: seq<Agent>, msgs: seq<Message>)
    ensures Broadcast(lib, a + b, msgs) == Broadcast(lib, b, Broadcast(lib, a, msgs))
    decreases |a|
  {
    if a == [] {
      assert a + b == b;
    } else {
      assert (a + b)[1..] == a[1..] + b;
      Broadcast_Concat(lib, a[1..], b, Ask(lib, a[0], msgs));
    }
  }

  /** No turn is skipped or dropped: after the first i + 1 agents, the history
      is the history after the first i agents plus agent i's entry exactly
      when its reply to that history is truthy; and that history is a prefix
      of the whole broadcast. */
  lemma Broadcast_Turn(lib: Library, agents: seq<Agent>, msgs: seq<Message>, i: nat)
    requires i < |agents|
    ensures Broadcast(lib, agents[..i + 1], msgs) == Ask(lib, agents[i], Broadcast(lib, agents[..i], msgs))
    ensures Broadcast(lib, agents[..i + 1], msgs) <= Broadcast(lib, agents, msgs)
  {
    var h := Broadcast(lib, agents[..i], msgs);
    assert agents[..i + 1] == agents[..i] + [agents[i]];
    Broadcast_Concat(lib, agents[..i], [agents[i]], msgs);
    assert Broadcast(lib, [agents[i]], h) == Broadcast(lib, [], Ask(lib, agents[i], h));
    assert agents == agents[..i + 1] + agents[i + 1..];
    Broadcast_Concat(lib, agents[..i + 1], agents[i + 1..], msgs);
  }

  /** The positions in `agents` of the agents whose reply `Broadcast` appends. */
  function Responders(lib: Library, agents: seq<Agent>, msgs: seq<Message>): seq<nat>
    decreases |agents|
  {
    if agents == [] then []
    else
      var reply := lib.generateReply(agents[0], msgs);
      if Truthy(reply)
      then [0] + Shift(Responders(lib, agents[1..], msgs + [lib.asEntry(reply, agents[0])]))
      else Shift(Responders(lib, agents[1..], msgs))
  }

  function Shift(idx: seq<nat>): (r: seq<nat>)
    ensures |r| == |idx| && forall k :: 0 <= k < |idx| ==> r[k] == idx[k] + 1
  {
    seq(|idx|, k requires 0 <= k < |idx| => idx[k] + 1)
  }

  /** Position `pos` of history `r` holds the entry for the truthy reply of
      `agents[i]` to the history before that position. */
  predicate AppendedBy(lib: Library, r: seq<Message>, pos: nat, agents: seq<Agent>, i: nat) {
    && pos < |r|
    && i < |agents|
    && Truthy(lib.generateReply(agents[i], r[..pos]))
    && r[pos] == lib.asEntry(lib.generateReply(agents[i], r[..pos]), agents[i])
  }

  /** The responders are distinct agents, taken in list order, one appended
      entry each. */
  lemma {:induction false} Responders_Ordered(lib: Library, agents: seq<Agent>, msgs: seq<Message>)
    ensures var idx := Responders(lib, agents, msgs);
            && |Broadcast(lib, agents, msgs)| == |msgs| + |idx|
            && (forall k :: 0 <= k < |idx| ==> idx[k] < |agents|)
            && (forall k, l :: 0 <= k < l < |idx| ==> idx[k] < idx[l])
    decreases |agents|
  {
    if agents != [] {
      var reply := lib.generateReply(agents[0], msgs);
      if Truthy(reply) {
        Responders_Ordered(lib, agents[1..], msgs + [lib.asEntry(reply, agents[0])]);
      } else {
        Responders_Ordered(lib, agents[1..], msgs);
      }
    }
  }

  /** The k-th entry the broadcast appends is the entry for the truthy reply of
      the k-th responder to the history as it stood just before it. */
  lemma {:induction false} Broadcast_Entries(lib: Library, agents: seq<Agent>, msgs: seq<Message>)
    ensures forall k :: 0 <= k < |Responders(lib, agents, msgs)| ==>
              AppendedBy(lib, Broadcast(lib, agents, msgs), |msgs| + k, agents, Responders(lib, agents, msgs)[k])
    decreases |agents|
  {
    if agents != [] {
      var reply := lib.generateReply(agents[0], msgs);
      var r := Broadcast(lib, agents, msgs);
      var idx := Responders(lib, agents, msgs);
      if Truthy(reply) {
        var msgs' := msgs + [lib.asEntry(reply, agents[0])];
        Broadcast_Entries(lib, agents[1..], msgs');
        var rest := Responders(lib, agents[1..], msgs');
        assert r == Broadcast(lib, agents[1..], msgs');
        assert idx == [0] + Shift(rest);
        assert r[..|msgs|] == msgs;
        forall k | 0 <= k < |idx|
          ensures AppendedBy(lib, r, |msgs| + k, agents, idx[k])
        {
          if k > 0 {
            assert AppendedBy(lib, r, |msgs'| + (k - 1), agents[1..], rest[k - 1]);
            assert agents[1..][rest[k - 1]] == agents[idx[k]];
          }
        }
      } else {
        Broadcast_Entries(lib, agents[1..], msgs);
        var rest := Responders(lib, agents[1..], msgs);
        assert r == Broadcast(lib, agents[1..], msgs);
        assert idx == Shift(rest);
        forall k | 0 <= k < |idx|
          ensures AppendedBy(lib, r, |msgs| + k, agents, idx[k])
        {
          assert AppendedBy(lib, r, |msgs| + k, agents[1..], rest[k]);
          assert agents[1..][rest[k]] == agents[idx[k]];
        }
      }
    }
  }

  /** When every agent gives a truthy reply, the broadcast appends exactly one
      entry per agent, the k-th entry from the k-th agent. */
  lemma {:induction false} Broadcast_AllReply(lib: Library, agents: seq<Agent>, msgs: seq<Message>)
    requires forall a, h :: Truthy(lib.generateReply(a, h))
    ensures |Broadcast(lib, agents, msgs)| == |msgs| + |agents|
    ensures Responders(lib, agents, msgs) == seq(|agents|, k => k)
    decreases |agents|
  {
    if agents != [] {
      var reply := lib.generateReply(agents[0], msgs);
      Broadcast_AllReply(lib, agents[1..], msgs + [lib.asEntry(reply, agents[0])]);
    }
  }

  /** When no agent gives a truthy reply, the broadcast leaves the history
      as it was. */
  lemma {:induction false} Broadcast_NoneReply(lib: Library, agents: seq<Agent>, msgs: seq<Message>)
    requires forall a, h :: !Truthy(lib.generateReply(a, h))
    ensures Broadcast(lib, agents, msgs) == msgs
    decreases |agents|
  {
    if agents != [] {
      Broadcast_NoneReply(lib, agents[1..], msgs);
    }
  }

  /** What `trigger_reasoning` does as written: the print after the first
      append calls `content_str`, a name the module never imports, so the
      first truthy reply is appended and then a NameError is raised. */
  datatype BroadcastOutcome = Completed(messages: seq<Message>) | NameErrorRaised(messages: seq<Message>)

  function BroadcastAsWritten(lib: Library, agents: seq<Agent>, msgs: seq<Message>): (r: BroadcastOutcome)
    ensures msgs <= r.messages && |r.messages| <= |msgs| + 1
    decreases |agents|
  {
    if agents == [] then Completed(msgs)
    else
      var reply := lib.generateReply(agents[0], msgs);
      if Truthy(reply) then NameErrorRaised(msgs + [lib.asEntry(reply, agents[0])])
      else BroadcastAsWritten(lib, agents[1..], msgs)
  }

  /** As written, the broadcast raises as soon as one agent replies, so it
      never records more than one reply; it completes only when nobody replies,
      and then agrees with the intended broadcast. */
  lemma {:induction false} BroadcastAsWritten_AtMostOne(lib: Library, agents: seq<Agent>, msgs: seq<Message>)
    ensures var o := BroadcastAsWritten(lib, agents, msgs);
            msgs <= o.messages && |o.messages| <= |msgs| + 1
    ensures var o := BroadcastAsWritten(lib, agents, msgs);
            o.Completed? <==> Responders(lib, agents, msgs) == []
    ensures BroadcastAsWritten(lib, agents, msgs).Completed? ==>
            BroadcastAsWritten(lib, agents, msgs).messages == Broadcast(lib, agents, msgs)
    decreases |agents|
  {
    if agents != [] {
      var reply := lib.generateReply(agents[0], msgs);
      if !Truthy(reply) {
        BroadcastAsWritten_AtMostOne(lib, agents[1..], msgs);
      }
    }
  }

  /** The discrepancy on a concrete input: two agents that both reply "a".
      As written only the first reply is recorded before the NameError; the
      intended broadcast records both. */
  lemma BroadcastAsWritten_Counterexample()
    ensures var lib := Library(
              (a: Agent, h: seq<Message>) => None,
              (a: Agent, m: Option<string>, h: seq<Message>) => [],
              (a: Agent) => None,
              (n: string) => None,
              "", "",
              (a: Agent, h: seq<Message>) => TextReply("a"),
              (r: Reply, a: Agent) => Message("assistant", "a", Some(a.name)));
            var agents := [Agent("AgentSHV"), Agent("AgentVSH")];
            && BroadcastAsWritten(lib, agents, []) == NameErrorRaised([Message("assistant", "a", Some("AgentSHV"))])
            && |Broadcast(lib, agents, [])| == 2
  {
  }

  // ---------------------------------------------------------------------
  // One round, one loop iteration, the loop, and `run`

  /** The override compares the counter with the trigger before `run`
      increments it: trigger r fires during the (r+1)-th round. */
  predicate Fires(trigger: Option<int>, roundCount: int) {
    trigger.Some? && roundCount == trigger.value
  }

  datatype RoundResult = RoundResult(next: Option<Agent>, messages: seq<Message>, fired: bool)

  /** `run_round(speaker, message)`: the library's round, then the reasoning
      broadcast when the counter equals the trigger, then `next_agent`. */
  function Round(st: Config, roundCount: int, speaker: Agent, message: Option<string>,
                 msgs: seq<Message>): (r: RoundResult)
    ensures msgs <= msgs + st.lib.baseRound(speaker, message, msgs) <= r.messages
    ensures r.fired <==> Fires(st.triggerReasoningRound, roundCount)
    ensures !r.fired ==> r.messages == msgs + st.lib.baseRound(speaker, message, msgs)
    ensures r.fired ==> r.messages == Broadcast(st.lib, st.agents, msgs + st.lib.baseRound(speaker, message, msgs))
    ensures r.next == st.lib.nextAgent(speaker)
  {
    var afterBase := msgs + st.lib.baseRound(speaker, message, msgs);
    var fired := Fires(st.triggerReasoningRound, roundCount);
    RoundResult(st.lib.nextAgent(speaker),
                if fired then Broadcast(st.lib, st.agents, afterBase) else afterBase,
                fired)
  }

  /** The loop's state: the history, the round counter, the last speaker and
      (for the proofs) how many broadcasts this run has made. */
  datatype ChatState = ChatState(messages: seq<Message>, roundCount: int, speaker: Agent, broadcasts: nat)

  /** What the operator does at the admin prompt: type a line, or press
      Ctrl+C again. */
  datatype OperatorInput = Line(text: string) | InterruptAgain

  /** What happens at an iteration boundary: nothing, or a keyboard interrupt
      followed by the operator's answer. */
  datatype Event = NoInterrupt | Interrupt(input: OperatorInput)

  datatype StepResult = Continue(s: ChatState) | Stop(s: ChatState) | Abort(s: ChatState)

  /** One iteration of the `while` loop. */
  function Step(st: Config, s: ChatState, e: Event): (r: StepResult)
    ensures s.messages <= r.s.messages
    ensures r.s.broadcasts == s.broadcasts
            || (r.s.broadcasts == s.broadcasts + 1 && Fires(st.triggerReasoningRound, s.roundCount))
    ensures r.Continue? ==>
              r.s.roundCount == s.roundCount + 1
              || (e.Interrupt? && st.lib.agentByName(st.adminName).None? && r.s == s)
    ensures !r.Continue? ==> r.s.roundCount == s.roundCount
    ensures r.Abort? <==> e == Interrupt(InterruptAgain) && st.lib.agentByName(st.adminName).Some?
    ensures e == Interrupt(Line("exit")) && st.lib.agentByName(st.adminName).Some? ==>
              r.Stop? && r.s.messages == s.messages
    ensures e.Interrupt? && st.lib.agentByName(st.adminName).None? ==> r == Continue(s)
    ensures e.Interrupt? && e.input.Line? && e.input.text != "exit" && st.lib.agentByName(st.adminName).Some? ==>
              && r.Continue?
              && r.s.roundCount == s.roundCount + 1
              && r.s.speaker == st.lib.agentByName(st.adminName).value
              && r.s.messages == Round(st, s.roundCount, st.lib.agentByName(st.adminName).value,
                                       Some(e.input.text), s.messages).messages
    ensures e == NoInterrupt && st.lib.selectSpeaker(s.speaker, s.messages).None? ==> r == Stop(s)
    ensures e == NoInterrupt && st.lib.selectSpeaker(s.speaker, s.messages).Some? ==>
              && r.s.speaker == st.lib.selectSpeaker(s.speaker, s.messages).value
              && r.s.messages == Round(st, s.roundCount, st.lib.selectSpeaker(s.speaker, s.messages).value,
                                       None, s.messages).messages
              && (r.Stop? <==> st.lib.nextAgent(st.lib.selectSpeaker(s.speaker, s.messages).value).None?)
  {
    match e
    case NoInterrupt =>
      (match st.lib.selectSpeaker(s.speaker, s.messages)
       case None => Stop(s)
       case Some(speaker) =>
         var round := Round(st, s.roundCount, speaker, None, s.messages);
         var s' := ChatState(round.messages, s.roundCount, speaker,
                             s.broadcasts + if round.fired then 1 else 0);
         if round.next.None? then Stop(s') else Continue(s'.(roundCount := s.roundCount + 1)))
    case Interrupt(input) =>
      match st.lib.agentByName(st.adminName)
      case None => Continue(s)
      case Some(admin) =>
        match input
        case InterruptAgain => Abort(s.(speaker := admin))
        case Line(text) =>
          if text == "exit" then Stop(s.(speaker := admin))
          else
            var round := Round(st, s.roundCount, admin, Some(text), s.messages);
            Continue(ChatState(round.messages, s.roundCount + 1, admin,
                               s.broadcasts + if round.fired then 1 else 0))
  }

  /** The loop ends normally, or a second Ctrl+C at the admin prompt aborts it
      with a KeyboardInterrupt. */
  datatype Final = Final(s: ChatState, aborted: bool)

  /** `while round_count < max_rounds`, one event per iteration; once the
      events run out no further interrupt arrives. */
  function Loop(st: Config, limit: int, s: ChatState, events: seq<Event>): (r: Final)
    ensures r.aborted ==> Interrupt(InterruptAgain) in events && st.lib.agentByName(st.adminName).Some?
    decreases limit - s.roundCount, |events|
  {
    if s.roundCount >= limit then Final(s, false)
    else
      var e := if events == [] then NoInterrupt else events[0];
      var rest := if events == [] then [] else events[1..];
      match Step(st, s, e)
      case Stop(s') => Final(s', false)
      case Abort(s') => Final(s', true)
      case Continue(s') => Loop(st, limit, s', rest)
  }

  datatype RunError = IndexError | KeyboardInterrupt

  /** The chat's state after `run` returns or raises. */
  datatype RunResult = RunResult(messages: seq<Message>, roundCount: int, broadcasts: nat, error: Option<RunError>)

  /** `run(messages, speaker, max_rounds)` from the chat's current history,
      counter and broadcast count. */
  function RunOutcome(st: Config, msgs: seq<Message>, roundCount: int, broadcasts: nat,
                      messagesArg: Option<seq<Message>>, speakerArg: Option<Agent>,
                      maxRoundsArg: Option<int>, events: seq<Event>): (r: RunResult)
    ensures r.error == Some(IndexError) <==> speakerArg.None? && st.agents == []
    ensures r.error == Some(KeyboardInterrupt) ==> Interrupt(InterruptAgain) in events
  {
    var history := messagesArg.GetOr(msgs);
    if speakerArg.None? && st.agents == [] then
      RunResult(history, roundCount, broadcasts, Some(IndexError))
    else
      var speaker := if speakerArg.Some? then speakerArg.value else st.agents[0];
      var limit := maxRoundsArg.GetOr(st.maxRound);
      var f := Loop(st, limit, ChatState(WithIntroduction(st, history), 0, speaker, 0), events);
      RunResult(f.s.messages, f.s.roundCount, f.s.broadcasts,
                if f.aborted then Some(KeyboardInterrupt) else None)
  }

  // ---------------------------------------------------------------------
  // Properties of the loop

  /** The loop only appends, and the counter never decreases nor passes the
      limit it started below. */
  lemma {:induction false} Loop_Monotone(st: Config, limit: int, s: ChatState, events: seq<Event>)
    ensures var f := Loop(st, limit, s, events).s;
            && s.messages <= f.messages
            && s.roundCount <= f.roundCount
            && (s.roundCount <= limit ==> f.roundCount <= limit)
            && s.broadcasts <= f.broadcasts
    decreases limit - s.roundCount, |events|
  {
    if s.roundCount < limit {
      var e := if events == [] then NoInterrupt else events[0];
      var rest := if events == [] then [] else events[1..];
      var r := Step(st, s, e);
      if r.Continue? {
        Loop_Monotone(st, limit, r.s, rest);
      }
    }
  }

  /** The broadcast fires at most once, and not at all once the counter has
      passed the trigger. */
  lemma {:induction false} Loop_FiresAtMostOnce(st: Config, limit: int, s: ChatState, events: seq<Event>)
    ensures var f := Loop(st, limit, s, events).s;
            var t := st.triggerReasoningRound;
            f.broadcasts <= s.broadcasts + (if t.Some? && s.roundCount <= t.value then 1 else 0)
    decreases limit - s.roundCount, |events|
  {
    if s.roundCount < limit {
      var e := if events == [] then NoInterrupt else events[0];
      var rest := if events == [] then [] else events[1..];
      var r := Step(st, s, e);
      if r.Continue? {
        Loop_FiresAtMostOnce(st, limit, r.s, rest);
      }
    }
  }

  /** A broadcast happens only at the trigger, within the rounds the loop
      ran; and if the counter went past the trigger, it did happen. */
  lemma {:induction false} Loop_FiresAtTrigger(st: Config, limit: int, s: ChatState, events: seq<Event>)
    ensures var f := Loop(st, limit, s, events).s;
            var t := st.triggerReasoningRound;
            && (f.broadcasts > s.broadcasts ==>
                  t.Some? && s.roundCount <= t.value <= f.roundCount && t.value < limit)
            && (t.Some? && s.roundCount <= t.value < f.roundCount ==> f.broadcasts == s.broadcasts + 1)
    decreases limit - s.roundCount, |events|
  {
    if s.roundCount < limit {
      var e := if events == [] then NoInterrupt else events[0];
      var rest := if events == [] then [] else events[1..];
      var r := Step(st, s, e);
      if r.Continue? {
        Loop_FiresAtTrigger(st, limit, r.s, rest);
        Loop_Monotone(st, limit, r.s, rest);
        Loop_FiresAtMostOnce(st, limit, r.s, rest);
      }
    }
  }

  /** Without interrupts, and with a library that always names a speaker and
      a next agent, the loop runs exactly up to the limit. */
  lemma {:induction false} Loop_RunsToLimit(st: Config, limit: int, s: ChatState)
    requires forall a, h :: st.lib.selectSpeaker(a, h).Some?
    requires forall a :: st.lib.nextAgent(a).Some?
    requires s.roundCount <= limit
    ensures !Loop(st, limit, s, []).aborted
    ensures Loop(st, limit, s, []).s.roundCount == limit
    decreases limit - s.roundCount
  {
    if s.roundCount < limit {
      var r := Step(st, s, NoInterrupt);
      Loop_RunsToLimit(st, limit, r.s);
    }
  }

  /** `run` resets the counter and never lets it pass `max_rounds`; the
      returned history extends the (introduced) starting history. */
  lemma Run_Bounds(st: Config, msgs: seq<Message>, roundCount: int, broadcasts: nat,
                   messagesArg: Option<seq<Message>>, speakerArg: Option<Agent>,
                   maxRoundsArg: Option<int>, events: seq<Event>)
    requires speakerArg.Some? || st.agents != []
    ensures var r := RunOutcome(st, msgs, roundCount, broadcasts, messagesArg, speakerArg, maxRoundsArg, events);
            var limit := maxRoundsArg.GetOr(st.maxRound);
            && 0 <= r.roundCount
            && (limit >= 0 ==> r.roundCount <= limit)
            && (limit <= 0 ==> r.roundCount == 0)
            && WithIntroduction(st, messagesArg.GetOr(msgs)) <= r.messages
            && r.error != Some(IndexError)
  {
    var speaker := if speakerArg.Some? then speakerArg.value else st.agents[0];
    var limit := maxRoundsArg.GetOr(st.maxRound);
    Loop_Monotone(st, limit, ChatState(WithIntroduction(st, messagesArg.GetOr(msgs)), 0, speaker, 0), events);
  }

  /** Per run: no broadcast without a trigger, at most one broadcast, only
      when the trigger is a round the loop reached below `max_rounds`, and
      always once the counter has gone past the trigger. */
  lemma Run_Trigger(st: Config, msgs: seq<Message>, roundCount: int, broadcasts: nat,
                    messagesArg: Option<seq<Message>>, speakerArg: Option<Agent>,
                    maxRoundsArg: Option<int>, events: seq<Event>)
    requires speakerArg.Some? || st.agents != []
    ensures var r := RunOutcome(st, msgs, roundCount, broadcasts, messagesArg, speakerArg, maxRoundsArg, events);
            var t := st.triggerReasoningRound;
            var limit := maxRoundsArg.GetOr(st.maxRound);
            && r.broadcasts <= 1
            && (t.None? ==> r.broadcasts == 0)
            && (r.broadcasts == 1 ==> t.Some? && 0 <= t.value <= r.roundCount && t.value < limit)
            && (t.Some? && 0 <= t.value < r.roundCount ==> r.broadcasts == 1)
  {
    var speaker := if speakerArg.Some? then speakerArg.value else st.agents[0];
    var limit := maxRoundsArg.GetOr(st.maxRound);
    var s0 := ChatState(WithIntroduction(st, messagesArg.GetOr(msgs)), 0, speaker, 0);
    Loop_FiresAtMostOnce(st, limit, s0, events);
    Loop_FiresAtTrigger(st, limit, s0, events);
  }

  /** `run` with no speaker and no agents fails on `self.agents[0]` after
      replacing the history and before touching the counter. */
  lemma Run_NoAgents(st: Config, msgs: seq<Message>, roundCount: int, broadcasts: nat,
                     messagesArg: Option<seq<Message>>, maxRoundsArg: Option<int>, events: seq<Event>)
    requires st.agents == []
    ensures var r := RunOutcome(st, msgs, roundCount, broadcasts, messagesArg, None, maxRoundsArg, events);
            r == RunResult(messagesArg.GetOr(msgs), roundCount, broadcasts, Some(IndexError))
  {
  }

  // ---------------------------------------------------------------------
  // The chat object

  class SmartGroupChat {
    const agents: seq<Agent>
    const maxRound: int
    const adminName: string
    const sendIntroductions: bool
    const triggerReasoningRound: Option<int>
    const lib: Library
    var messages: seq<Message>
    var roundCount: int
    /** Broadcasts made by the current (or last) `run`; proof bookkeeping only. */
    ghost var broadcasts: nat

    function Settings(): Config {
      Config(agents, maxRound, adminName, sendIntroductions, triggerReasoningRound, lib)
    }

    constructor (agents: seq<Agent>, messages: seq<Message>, maxRound: int, adminName: string,
                 sendIntroductions: bool, triggerReasoningRound: Option<int>, lib: Library)
      ensures Settings() == Config(agents, maxRound, adminName, sendIntroductions, triggerReasoningRound, lib)
      ensures this.messages == messages && roundCount == 0 && broadcasts == 0
    {
      this.agents := agents;
      this.maxRound := maxRound;
      this.adminName := adminName;
      this.sendIntroductions := sendIntroductions;
      this.triggerReasoningRound := triggerReasoningRound;
      this.lib := lib;
      this.messages := messages;
      roundCount := 0;
      broadcasts := 0;
    }

    /** `trigger_reasoning`, with the print that names `content_str` left out. */
    method TriggerReasoning()
      modifies this`messages
      ensures messages == Broadcast(lib, agents, old(messages))
    {
      for i := 0 to |agents|
        invariant Broadcast(lib, agents[i..], messages) == Broadcast(lib, agents, old(messages))
      {
        var agent := agents[i];
        assert agents[i..][1..] == agents[i + 1..];
        var reply := lib.generateReply(agent, messages);
        if Truthy(reply) {
          messages := messages + [lib.asEntry(reply, agent)];
        }
      }
    }

    /** The overriding `run_round`. */
    method RunRound(speaker: Agent, message: Option<string>) returns (next: Option<Agent>)
      modifies this`messages, this`broadcasts
      ensures var r := Round(Settings(), roundCount, speaker, message, old(messages));
              && next == r.next
              && messages == r.messages
              && broadcasts == old(broadcasts) + if r.fired then 1 else 0
    {
      messages := messages + lib.baseRound(speaker, message, messages);
      if triggerReasoningRound.Some? && roundCount == triggerReasoningRound.value {
        TriggerReasoning();
        broadcasts := broadcasts + 1;
      }
      next := lib.nextAgent(speaker);
    }

    /** One pass of the `while` loop: the `try` block, or the `except
        KeyboardInterrupt` branch when the event is an interrupt.  `stop` is a
        `break`; `abort` is the exception leaving `run`. */
    method RunIteration(speaker: Agent, e: Event) returns (speaker': Agent, stop: bool, abort: bool)
      modifies this`messages, this`roundCount, this`broadcasts
      ensures var r := Step(Settings(), ChatState(old(messages), old(roundCount), speaker, old(broadcasts)), e);
              && ChatState(messages, roundCount, speaker', broadcasts) == r.s
              && stop == r.Stop?
              && abort == r.Abort?
    {
      speaker', stop, abort := speaker, false, false;
      match e
      case NoInterrupt =>
        var selected := lib.selectSpeaker(speaker, messages);
        if selected.None? {
          stop := true;
          return;
        }
        speaker' := selected.value;
        var next := RunRound(speaker', None);
        if next.None? {
          stop := true;
          return;
        }
        roundCount := roundCount + 1;
      case Interrupt(input) =>
        var admin := lib.agentByName(adminName);
        if admin.Some? {
          speaker' := admin.value;
          match input
          case InterruptAgain =>
            abort := true;
          case Line(text) =>
            if text == "exit" {
              stop := true;
              return;
            }
            var _ := RunRound(speaker', Some(text));
            roundCount := roundCount + 1;
        }
    }

    /** The `while` loop of `run`, from the current history and counter;
        `aborted` is a KeyboardInterrupt leaving the loop. */
    method RunLoop(speaker: Agent, maxRounds: int, events: seq<Event>) returns (aborted: bool)
      modifies this`messages, this`roundCount, this`broadcasts
      ensures var f := Loop(Settings(), maxRounds, ChatState(old(messages), old(roundCount), speaker, old(broadcasts)), events);
              && messages == f.s.messages
              && roundCount == f.s.roundCount
              && broadcasts == f.s.broadcasts
              && aborted == f.aborted
    {
      ghost var start := ChatState(messages, roundCount, speaker, broadcasts);
      var current := speaker;
      var pending := events;
      aborted := false;
      while roundCount < maxRounds
        invariant Loop(Settings(), maxRounds, ChatState(messages, roundCount, current, broadcasts), pending)
                  == Loop(Settings(), maxRounds, start, events)
        decreases maxRounds - roundCount, |pending|
      {
        var e := if pending == [] then NoInterrupt else pending[0];
        pending := if pending == [] then [] else pending[1..];
        var stop, abort;
        current, stop, abort := RunIteration(current, e);
        if abort {
          return true;
        }
        if stop {
          break;
        }
      }
    }

    /** `run`: an error result stands for the exception escaping `run`. */
    method Run(messagesArg: Option<seq<Message>>, speakerArg: Option<Agent>, maxRoundsArg: Option<int>,
               events: seq<Event>) returns (outcome: Result<seq<Message>, RunError>)
      modifies this`messages, this`roundCount, this`broadcasts
      ensures var r := RunOutcome(Settings(), old(messages), old(roundCount), old(broadcasts),
                                  messagesArg, speakerArg, maxRoundsArg, events);
              && messages == r.messages
              && roundCount == r.roundCount
              && broadcasts == r.broadcasts
              && outcome == if r.error.Some? then Failure(r.error.value) else Success(messages)
    {
      if messagesArg.Some? {
        messages := messagesArg.value;
      }
      var speaker: Agent;
      if speakerArg.Some? {
        speaker := speakerArg.value;
      } else if agents == [] {
        return Failure(IndexError);
      } else {
        speaker := agents[0];
      }
      var maxRounds := maxRoundsArg.GetOr(maxRound);
      if sendIntroductions && !HasIntroduction(lib, messages) {
        messages := [IntroductionMessage(lib)] + messages;
      }
      roundCount := 0;
      broadcasts := 0;
      var aborted := RunLoop(speaker, maxRounds, events);
      if aborted {
        return Failure(KeyboardInterrupt);
      }
      outcome := Success(messages);
    }
  }
}
