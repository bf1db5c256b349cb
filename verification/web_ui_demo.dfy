/** The browser front end's script: the rule text given to the agents, the
    user proxy that also queues each reply for the browser, the rule-log
    record written on termination, and the handler for a line the user
    types. */
module WebUiDemo {
  import opened Wrappers
  import opened Chat
  import Text
  import RuleLog
  import opened ScriptCommon

  const CORE_RULE: string :=
    "You are only allowed to talk using 1 letter from alphabet series and send letter as a response to another agent"

  const RULE_CONSTRAINTS: seq<string> := [
    "You are not allowed to give any explanations unless user inputs 'explain_reasoning'",
    "Follow the core rule strictly in all interactions"
  ]

  /** The rule text: the core rule, ". ", then the constraints joined by
      single spaces. */
  function Rule(): (r: string)
    ensures r == CORE_RULE + ". " + RULE_CONSTRAINTS[0] + " " + RULE_CONSTRAINTS[1]
    ensures Text.StartsWith(r, CORE_RULE + ". ") && Text.EndsWith(r, RULE_CONSTRAINTS[1])
    ensures |r| == |CORE_RULE| + 2 + Text.SumLengths(RULE_CONSTRAINTS) + |RULE_CONSTRAINTS| - 1
  {
    Text.JoinLength(" ", RULE_CONSTRAINTS);
    Text.JoinSnoc(" ", RULE_CONSTRAINTS[..1], RULE_CONSTRAINTS[1]);
    assert RULE_CONSTRAINTS[..1] + [RULE_CONSTRAINTS[1]] == RULE_CONSTRAINTS;
    CORE_RULE + ". " + Text.Join(" ", RULE_CONSTRAINTS)
  }

  /** `generate_yaml_file`: the record it appends carries this script's rule. */
  method GenerateYamlFile(loaded: RuleLog.LoadedFile, timestamp: string)
    returns (r: Result<seq<RuleLog.RuleEntry>, RuleLog.LogError>)
    ensures r == RuleLog.AppendedLog(loaded, timestamp, Rule())
    ensures r.Success? ==> r.value[|r.value| - 1].message == Rule()
  {
    r := RuleLog.GenerateRuleLog(loaded, timestamp, Rule());
  }

  /** `handle_user_message`: what it sends to the manager and, on
      termination, the rule log it writes. */
  method HandleUserMessage(data: Option<string>, loaded: RuleLog.LoadedFile, timestamp: string)
    returns (sent: Dispatch, log: Option<Result<seq<RuleLog.RuleEntry>, RuleLog.LogError>>)
    ensures IsTerminateCommand(data.GetOr("")) ==>
              sent == Dispatch("AgentSHV", "explain_reasoning")
              && log == Some(RuleLog.AppendedLog(loaded, timestamp, Rule()))
    ensures !IsTerminateCommand(data.GetOr("")) ==>
              sent == Dispatch("User", data.GetOr("")) && log == None
  {
    var message := data.GetOr("");
    var action := Route(message);
    sent := Sent(action);
    if action == EndConversation {
      var r := GenerateYamlFile(loaded, timestamp);
      log := Some(r);
    } else {
      log := None;
    }
  }

  /** An entry put on the queue the browser is fed from. */
  datatype QueueItem = QueueItem(role: string, content: Reply)

  /** `CustomUserProxyAgent`: the queue is the module-level `message_queue`,
      which this agent alone fills. */
  class CustomUserProxyAgent {
    const name: string
    var messageQueue: seq<QueueItem>

    /** Every queued item is a truthy reply under this agent's name. */
    ghost predicate Valid()
      reads this
    {
      forall i :: 0 <= i < |messageQueue| ==>
        messageQueue[i].role == name && Truthy(messageQueue[i].content)
    }

    constructor (name: string)
      ensures this.name == name && messageQueue == [] && Valid()
    {
      this.name := name;
      messageQueue := [];
    }

    /** `generate_reply`: `baseReply` is what the parent class's
        `generate_reply` returned; it is queued only when truthy and is
        returned unchanged. */
    method GenerateReply(baseReply: Reply) returns (reply: Reply)
      requires Valid()
      modifies this`messageQueue
      ensures Valid()
      ensures reply == baseReply
      ensures messageQueue == old(messageQueue) + if Truthy(baseReply) then [QueueItem(name, baseReply)] else []
    {
      reply := baseReply;
      if Truthy(reply) {
        messageQueue := messageQueue + [QueueItem(name, reply)];
      }
    }
  }
}
