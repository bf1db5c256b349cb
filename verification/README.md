# SmartGroupChat round scheduling, in Dafny

This project models the conversation engine of the Constraint-Test agents:

- `SmartGroupChat` (agents/smart_groupchat/smart_groupchat.py) runs a group
  chat round by round. It resets a round counter and, if asked, puts an
  introduction at the head of the history. Each round it selects a speaker
  and runs the round. When the counter equals `trigger_reasoning_round` it
  asks every agent, in list order, for its reasoning and appends each truthy
  reply. A keyboard interrupt lets the operator speak as the admin agent for
  one round, or type `exit` to stop.
- The two scripts (agents/web-ui-demo/app.py and agents/itr_one/test_one.py)
  share three pieces of logic, each duplicated in the source:
  - the rule-log record `generate_yaml_file` appends (ids `RULE_nnn` and
    `OBS_nnn_001`);
  - the case-insensitive termination predicates given to the user proxy and
    to the manager;
  - the routing of an operator line: "terminate" ends the conversation, and
    any other line is forwarded.

Files:

| file | module | contents |
|---|---|---|
| wrappers.dfy | `Wrappers` | `Option`, `Result` |
| chat.dfy | `Chat` | agents, messages, replies and Python truthiness |
| text.dfy | `Text` | `lower`, `startswith`, `endswith`, `join`, the `:03d` format and its parser |
| smart_groupchat.dfy | `SmartChat` | the library calls as a record of functions; the round, the iteration, the loop and `run` as functions; the class `SmartGroupChat`, whose methods are proved to compute those functions; the lemmas about the loop |
| rule_log.dfy | `RuleLog` | the rule-log record and the list that is written back |
| script_common.dfy | `ScriptCommon` | termination predicates and operator-line routing |
| web_ui_demo.dfy | `WebUiDemo` | `rule`, `generate_yaml_file`, `handle_user_message`, `CustomUserProxyAgent` |
| itr_one.dfy | `ItrOne` | `rule`, `generate_yaml_file`, the console input loop |

How the model is built:

- **Library calls.** The autogen library is not visible. The calls the loop
  makes to it are fields of `SmartChat.Library`: `_prepare_and_select_agents`,
  the parent `run_round`, `next_agent`, `agent_by_name`,
  `introductions_msg`, `DEFAULT_INTRO_MSG`, `generate_reply` and the entry
  `append` adds. Each field is an arbitrary function of its listed
  arguments, so every lemma holds for any such library. The model assumes
  three things:
  - each call returns normally;
  - each call depends only on the arguments shown;
  - the parent `run_round` only appends to the history, so the model has it
    return the entries it appends.
- **Interrupts.** A keyboard interrupt and the operator's answer are an
  `Event`. `run` takes a sequence of events and uses one per loop iteration.
  Once the sequence runs out, no more interrupts arrive.
- **Operator input and file contents.** The operator's lines and what
  `yaml.safe_load` made of the log file are inputs. The timestamp is a
  parameter.

Where the code and the design description of the system differ, the model
follows the code:

- **When the trigger fires.** The description puts the broadcast right after
  round r completes. The code compares `round_count` with the trigger inside
  `run_round`, before `run` increments the counter (smart_groupchat.py:38,
  :75). So trigger r fires during the (r+1)-th round, after that round's
  turn, and trigger 0 fires in the first round.
- **Admin rounds.** An admin-takeover round also goes through the overriding
  `run_round`, so it can fire the broadcast too.
- **Firing twice.** The code has no guard against firing twice. The model
  shows that none is needed when interrupts arrive only between iterations
  (`Run_Trigger`).
- **Configuration errors.** The code does no configuration checking. The
  only early failure is `self.agents[0]` on an empty agent list, which
  raises IndexError after `messages` has been replaced.
- **Admin-round result.** After an admin round, the agent that `run_round`
  returns is ignored: the loop never stops because it is None.

## Model

| member | source | states |
|---|---|---|
| `SmartChat.WithIntroduction` | agents/smart_groupchat/smart_groupchat.py:52-56 | the history grows by exactly one entry iff `send_introductions` holds and no system message starts with the intro marker; that entry is the introduction at index 0; the existing messages follow in their old order |
| `SmartChat.WithIntroduction_Idempotent` | agents/smart_groupchat/smart_groupchat.py:52-56 | when the introduction text starts with the marker, a second `run` never inserts it again |
| `SmartChat.Broadcast` | agents/smart_groupchat/smart_groupchat.py:21-25 | the reasoning broadcast only appends: the old history is a prefix, and it grows by at most `len(agents)` |
| `SmartChat.Responders_Ordered` | agents/smart_groupchat/smart_groupchat.py:21-25 | the broadcast appends exactly one entry per responding agent; the responders are distinct positions of `self.agents` in strictly increasing (list) order |
| `SmartChat.Broadcast_Entries` | agents/smart_groupchat/smart_groupchat.py:22-25 | the k-th appended entry is `append`'s entry for the k-th responder's truthy reply to the history as it stood just before it |
| `SmartChat.Broadcast_AllReply` | agents/smart_groupchat/smart_groupchat.py:21-25 | if every agent replies, the broadcast appends `len(agents)` entries, the k-th from `agents[k]` |
| `SmartChat.Broadcast_NoneReply` | agents/smart_groupchat/smart_groupchat.py:24 | if no agent replies, the history is unchanged |
| `SmartChat.BroadcastAsWritten_AtMostOne` | agents/smart_groupchat/smart_groupchat.py:24-26 | as written, the broadcast records at most one reply; it completes only when no agent replies, and then it agrees with the intended broadcast |
| `SmartChat.BroadcastAsWritten_Counterexample` | agents/smart_groupchat/smart_groupchat.py:26 | two agents both reply "a": as written, one entry is appended and a NameError follows, where the intended broadcast appends two |
| `SmartChat.Broadcast_Concat` | agents/smart_groupchat/smart_groupchat.py:21-25 | broadcasting to `a + b` is broadcasting to `a`, then to `b` on the resulting history |
| `SmartChat.Broadcast_Turn` | agents/smart_groupchat/smart_groupchat.py:21-25 | no reply is dropped: after agent i's turn, the history is the history before it plus that agent's entry exactly when its reply to that history is truthy; each intermediate history is a prefix of the final one |
| `SmartChat.BroadcastAsWritten` | agents/smart_groupchat/smart_groupchat.py:21-26 | the broadcast as written keeps the old history as a prefix and adds at most one entry |
| `SmartChat.Round` | agents/smart_groupchat/smart_groupchat.py:29-41 | the library's round only appends; the broadcast fires exactly when `trigger_reasoning_round` is not None and equals the current counter; when it fires, the history is the broadcast applied to the history after the library's round; otherwise it is that history unchanged; the result is `next_agent(speaker)` |
| `SmartChat.Step` | agents/smart_groupchat/smart_groupchat.py:59-85 | one loop iteration only appends; it fires at most one broadcast, and only when the counter equals the trigger; a break keeps the counter unchanged. Without an interrupt: no selected speaker breaks with nothing changed; otherwise that speaker's round runs and becomes the state, and the loop breaks exactly when `next_agent` is None, else adds 1 to the counter. On an interrupt: with no admin nothing changes and the loop goes on; a second Ctrl+C aborts; "exit" stops with the history unchanged; any other line runs one admin round with that line as its message and adds exactly 1 to the counter |
| `SmartChat.Loop` | agents/smart_groupchat/smart_groupchat.py:59-85 | the `while` loop ends in a KeyboardInterrupt only if the events hold a second Ctrl+C and an admin agent exists |
| `SmartChat.RunOutcome` | agents/smart_groupchat/smart_groupchat.py:43-86 | `run` fails with IndexError exactly when no speaker is given and there are no agents; it fails with KeyboardInterrupt only on a second Ctrl+C among the events |
| `SmartChat.Loop_Monotone` | agents/smart_groupchat/smart_groupchat.py:59-85 | the loop only appends, never lowers the counter, and never takes it past `max_rounds` when it started below |
| `SmartChat.Loop_FiresAtMostOnce` | agents/smart_groupchat/smart_groupchat.py:38-39 | from any state, the loop fires at most one broadcast, and none once the counter is past the trigger |
| `SmartChat.Loop_FiresAtTrigger` | agents/smart_groupchat/smart_groupchat.py:38-39 | a broadcast happens only at the trigger, for a counter the loop reached below `max_rounds`; it certainly happens when the counter went past the trigger |
| `SmartChat.Loop_RunsToLimit` | agents/smart_groupchat/smart_groupchat.py:59-75 | with no interrupts, and a library that always yields a speaker and a next agent, the loop runs exactly up to `max_rounds` and does not abort |
| `SmartChat.Run_Bounds` | agents/smart_groupchat/smart_groupchat.py:58-59 | after `run`, `0 <= round_count <= max_rounds`, or 0 when `max_rounds <= 0`; the returned history extends the starting history (after any introduction) |
| `SmartChat.Run_Trigger` | agents/smart_groupchat/smart_groupchat.py:16 | per run: no broadcast when the trigger is None; at most one broadcast; it happens only when the trigger is a counter value the run reached below `max_rounds`; it always happens when the final counter is past the trigger |
| `SmartChat.Run_NoAgents` | agents/smart_groupchat/smart_groupchat.py:45-48 | with no speaker given and no agents, `run` raises IndexError after replacing `messages` and leaves the counter alone |
| `SmartChat.SmartGroupChat.constructor` | agents/smart_groupchat/smart_groupchat.py:11-16 | the chat starts with the given configuration and history |
| `SmartChat.SmartGroupChat.TriggerReasoning` | agents/smart_groupchat/smart_groupchat.py:18-27 | the `for` loop over `self.agents` leaves `messages` equal to `Broadcast` of the old history |
| `SmartChat.SmartGroupChat.RunRound` | agents/smart_groupchat/smart_groupchat.py:29-41 | the new history and the returned agent are those of `Round` at the current counter; the broadcast count goes up exactly when it fires |
| `SmartChat.SmartGroupChat.RunIteration` | agents/smart_groupchat/smart_groupchat.py:60-85 | one pass of the loop body leaves the state `Step` gives; it reports a break and an escaping KeyboardInterrupt exactly as `Step` does |
| `SmartChat.SmartGroupChat.RunLoop` | agents/smart_groupchat/smart_groupchat.py:59-85 | the `while` loop, one event per pass, leaves the history, counter and broadcast count that `Loop` gives, and escapes with a KeyboardInterrupt exactly when `Loop` aborts |
| `SmartChat.SmartGroupChat.Run` | agents/smart_groupchat/smart_groupchat.py:43-86 | `messages` is replaced only when supplied; the speaker defaults to `agents[0]`; `max_rounds` defaults to `max_round`; the final history and counter are those of `RunOutcome`; the returned value is the mutated `self.messages` |
| `Text.Lower` | agents/web-ui-demo/app.py:164 | `s.lower()` keeps the length and lower-cases each ASCII letter in place, leaving every other character alone |
| `Text.Join` | agents/web-ui-demo/app.py:40 | `sep.join(parts)` of a non-empty list starts with the first part and ends with the last |
| `Text.Format03d` | agents/web-ui-demo/app.py:68 | the `03d` format gives at least three characters, all decimal digits |
| `Text.Format03d_RoundTrip` | agents/web-ui-demo/app.py:68 | `int(f"{n:03d}") == n`: the padded number loses nothing |
| `Text.Format03d_Injective` | agents/web-ui-demo/app.py:68 | distinct numbers have distinct padded forms |
| `Text.Format03d_Width` | agents/web-ui-demo/app.py:68 | the padded form has at least three digits; it has exactly three iff `n < 1000`; from 1000 on it is the plain decimal |
| `Text.JoinSnoc` | agents/web-ui-demo/app.py:40 | joining one more part adds the separator and then the part at the end |
| `Text.JoinLength` | agents/web-ui-demo/app.py:40 | a join has the parts' total length plus one separator between each pair of neighbours |
| `RuleLog.AppendedLog` | agents/web-ui-demo/app.py:61-83 | on success the written list is non-empty, and its last record is the rule numbered by the list's new length, carrying the given timestamp and message |
| `RuleLog.GenerateRuleLog` | agents/web-ui-demo/app.py:61-83 | loading, then appending in place, gives the list `AppendedLog` describes |
| `RuleLog.AppendedLog_Appends` | agents/web-ui-demo/app.py:67-83 | the only failures are an empty document (TypeError) and a document with no rule list (KeyError); otherwise the new rule follows all existing rules, which are unchanged; it is numbered one past their count, in both its rule id and its observation id |
| `RuleLog.AppendedLog_FreshFile` | agents/web-ui-demo/app.py:61-65 | a missing or unparseable file gives a one-rule log whose ids are `RULE_001` and `OBS_001_001` |
| `RuleLog.RuleId_Number` | agents/web-ui-demo/app.py:68-74 | the rule id is `RULE_` followed by digits that read back as the rule's number; it is 8 characters long iff the number is below 1000; the observation id is `OBS_`, the same padded number, then `_001` |
| `RuleLog.Ids_Injective` | agents/web-ui-demo/app.py:68-74 | distinct rule numbers give distinct rule ids and distinct observation ids |
| `RuleLog.AppendedLog_KeepsSequential` | agents/web-ui-demo/app.py:67-83 | appending keeps a log where rule k+1 sits at position k; such a log never repeats a rule id or an observation id |
| `RuleLog.Sequential_Distinct` | agents/web-ui-demo/app.py:68-74 | in a log where rule k+1 sits at position k, no two records share a rule id or an observation id |
| `ScriptCommon.IsTerminationMsg` | agents/web-ui-demo/app.py:119 | the termination test holds only when the content is at least as long as the token |
| `ScriptCommon.UserProxyIsTermination` | agents/web-ui-demo/app.py:119 | the user proxy's test holds only for a present content of at least 9 characters |
| `ScriptCommon.ManagerIsTermination` | agents/web-ui-demo/app.py:139 | the manager's test holds only for a present content of at least 17 characters |
| `ScriptCommon.IsTerminateCommand` | agents/web-ui-demo/app.py:164 | only a 9-character line can be the terminate command |
| `Chat.Truthy` | agents/smart_groupchat/smart_groupchat.py:24 | a reply is truthy exactly when it is not None, not "" and not an empty dict (the same test as agents/web-ui-demo/app.py:95) |
| `ScriptCommon.IsTerminationMsg_Iff` | agents/web-ui-demo/app.py:119 | the termination predicate (the same lambda as agents/itr_one/test_one.py:93 and :113) holds iff the lower-cased content is some text followed by the token; a missing content never ends a chat |
| `ScriptCommon.IsTerminationMsg_IgnoresCase` | agents/web-ui-demo/app.py:139 | the predicates ignore letter case: lower-casing the content first changes nothing |
| `ScriptCommon.TerminationTokens_Exclusive` | agents/itr_one/test_one.py:93-113 | no content ends both the user proxy ("terminate") and the manager ("explain_reasoning") |
| `ScriptCommon.Route` | agents/web-ui-demo/app.py:164-180 | a line ends the conversation iff it is "terminate" ignoring case; every other line is forwarded verbatim |
| `ScriptCommon.Route_Consistent` | agents/web-ui-demo/app.py:164-169 | a line routed to termination would also end the user proxy, and the "explain_reasoning" the branch sends ends the manager; a forwarded line is sent by "User" unchanged and is never a terminate command |
| `WebUiDemo.Rule` | agents/web-ui-demo/app.py:31-40 | `rule` is `CORE_RULE`, then ". ", then the two constraints joined by one space |
| `WebUiDemo.GenerateYamlFile` | agents/web-ui-demo/app.py:57-86 | the written list is `AppendedLog` of the loaded file, and its last record carries this script's `rule` |
| `WebUiDemo.HandleUserMessage` | agents/web-ui-demo/app.py:161-180 | a missing message counts as ""; "terminate" in any case makes AgentSHV send "explain_reasoning" and writes the rule log; any other message is sent by "User" verbatim and writes nothing |
| `WebUiDemo.CustomUserProxyAgent.constructor` | agents/web-ui-demo/app.py:89-91 | the agent starts with an empty queue |
| `WebUiDemo.CustomUserProxyAgent.GenerateReply` | agents/web-ui-demo/app.py:93-100 | the reply is returned unchanged; `{role: name, content: reply}` is queued iff the reply is truthy; every queued item stays a truthy reply under this agent's name |
| `ItrOne.GenerateYamlFile` | agents/itr_one/test_one.py:38-71 | the written list is `AppendedLog` of the loaded file, and its last record carries this script's `rule` |
| `ItrOne.FirstTerminate` | agents/itr_one/test_one.py:129-132 | the position of the first line that is "terminate" ignoring case: no earlier line is, and the one there is |
| `ItrOne.InteractionLoop` | agents/itr_one/test_one.py:129-153 | every line before the first "terminate" is sent by "User" verbatim, in order; at "terminate" AgentSHV sends "explain_reasoning", the rule log is written and the loop ends; if the lines run out there is no log |

## Findings

| source | as written | input that shows it | evidently intended | confidence | as-written member | corrected member |
|---|---|---|---|---|---|---|
| agents/smart_groupchat/smart_groupchat.py:26 | after appending a reasoning reply, the print calls `content_str`, a name the module never imports, so a NameError leaves `trigger_reasoning` and `run` | the trigger round is reached and two agents both reply "a" | record every agent's reasoning reply and carry on with the loop | high; not executed | `SmartChat.BroadcastAsWritten_Counterexample` | `SmartChat.Broadcast_AllReply` |

The rest of the model uses the corrected broadcast (`SmartChat.Broadcast`,
`SmartChat.SmartGroupChat.TriggerReasoning`).

## Left out

- Library calls that raise are not modelled. In the source, any exception
  from `_prepare_and_select_agents`, `run_round`, `generate_reply` or
  `append` leaves `run`; only KeyboardInterrupt is caught
  (smart_groupchat.py:76).
- Library state is not modelled. Each library call is a deterministic
  function of the arguments shown. A reply that depends on an agent's own
  state, such as the prompt `agent.send` has just delivered to it, is not
  captured.
- Aliasing of the caller's list is not modelled. After
  `self.messages = messages` (smart_groupchat.py:46) the chat shares that
  list with the caller, and the `insert(0, …)` and every later append change
  the caller's list in place. Here `messages` is a value.
- The autogen internals are arbitrary functions, so the model states nothing
  about them. That covers round-robin speaker order, what the parent
  `run_round` appends (for example, whether the admin's line goes in
  verbatim), how `append` builds an entry, and `agent_by_name`.
- The optional `messages` argument of the overriding `run_round` is not modelled. `run` never passes it, and it only goes on to the library's `run_round`.
- `agent.send(REASONING_PROMPT, self, request_reply=False)` in the broadcast
  is not modelled. The model assumes this call returns normally and leaves
  `self.messages` alone.
- Keyboard interrupts arrive only between loop iterations. An interrupt in
  the middle of a round is not modelled.
- Printing, coloured output and logging are not modelled.
- Message dicts always have a role and string content here. A missing key,
  or content that is None, would raise in Python; the model does not cover
  that.
- `str.lower` is modelled for ASCII letters only. Python's Unicode case
  mapping is not modelled.
- Flask, SocketIO, the agent thread, the queue-draining emitter and the
  `emit` of the termination notice are left out (network, UI and
  concurrency). The module-level `message_queue` is the agent's
  `messageQueue` field.
- Reading and writing `agent_interactions.yaml` and `datetime.now()` are left
  out. What `yaml.safe_load` returned is an input; the timestamp is a
  parameter.
- Existing records in the YAML file are assumed to have the shape the
  scripts write. Arbitrary YAML values, and a `rules` entry that is not a
  list, are not modelled.
- `get_agent_reasoning` (a call to the language model) is left out. So are
  the reasoning values and chat history passed to `generate_yaml_file`; the
  function never uses them.
- The LLM configuration, agent construction and `initiate_chat` are left
  out. They are static setup and a call into the library.
- `InteractionLoop` ends without a log when the input runs out. That stands
  for the EOFError `input()` would raise.
