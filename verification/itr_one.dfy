/** The console script: its rule text, the rule-log record written on
    termination, and the main input loop. */
module ItrOne {
  import opened Wrappers
  import RuleLog
  import opened ScriptCommon

  const RULE: string :=
    "You are only allowed to talk using 1 letter from alphabet series and send letter\n"
    + "          as a response to another agent, you are not allowed to give any explanations as to\n"
    + "          why you chose the word unless prompted to till then limit your responses to only 1 letter"

  /** `generate_yaml_file`: the record it appends carries this script's rule. */
  method GenerateYamlFile(loaded: RuleLog.LoadedFile, timestamp: string)
    returns (r: Result<seq<RuleLog.RuleEntry>, RuleLog.LogError>)
    ensures r == RuleLog.AppendedLog(loaded, timestamp, RULE)
    ensures r.Success? ==> r.value[|r.value| - 1].message == RULE
  {
    r := RuleLog.GenerateRuleLog(loaded, timestamp, RULE);
  }

  /** The position of the first "terminate" command, or `|inputs|` if the
      operator never types one. */
  function FirstTerminate(inputs: seq<string>): (k: nat)
    ensures k <= |inputs|
    ensures forall j :: 0 <= j < k ==> !IsTerminateCommand(inputs[j])
    ensures k < |inputs| ==> IsTerminateCommand(inputs[k])
  {
    if inputs == [] || IsTerminateCommand(inputs[0]) then 0
    else 1 + FirstTerminate(inputs[1..])
  }

  /** The `while True` loop over the operator's lines.  Every line before the
      first "terminate" (any letter case) is sent on verbatim; at "terminate"
      AgentSHV asks the manager for the reasoning, the rule log is written
      and the loop ends.  Lines running out (EOF at `input()`) end the loop
      without a log. */
  method InteractionLoop(inputs: seq<string>, loaded: RuleLog.LoadedFile, timestamp: string)
    returns (sent: seq<Dispatch>, log: Option<Result<seq<RuleLog.RuleEntry>, RuleLog.LogError>>)
    ensures |sent| == if FirstTerminate(inputs) < |inputs| then FirstTerminate(inputs) + 1 else |inputs|
    ensures forall j :: 0 <= j < FirstTerminate(inputs) ==> sent[j] == Dispatch("User", inputs[j])
    ensures FirstTerminate(inputs) < |inputs| ==> sent[|sent| - 1] == Dispatch("AgentSHV", "explain_reasoning")
    ensures FirstTerminate(inputs) < |inputs| ==> log == Some(RuleLog.AppendedLog(loaded, timestamp, RULE))
    ensures FirstTerminate(inputs) == |inputs| ==> log == None
  {
    sent := [];
    var i := 0;
    while i < |inputs|
      invariant i <= |inputs|
      invariant |sent| == i
      invariant forall j :: 0 <= j < i ==> !IsTerminateCommand(inputs[j])
      invariant forall j :: 0 <= j < i ==> sent[j] == Dispatch("User", inputs[j])
    {
      var userInput := inputs[i];
      var action := Route(userInput);
      sent := sent + [Sent(action)];
      if action == EndConversation {
        var r := GenerateYamlFile(loaded, timestamp);
        log := Some(r);
        return;
      }
      i := i + 1;
    }
    log := None;
  }
}
