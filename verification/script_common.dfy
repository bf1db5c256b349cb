/** What the two scripts share besides the rule log: the termination
    predicates given to the user proxy and the chat manager, and the routing
    of an operator's line (either ends the conversation or is sent on). */
module ScriptCommon {
  import opened Wrappers
  import Text

  /** The termination test both scripts hand to the library: the message's
      content, lower-cased, ends with the token; a message without content
      counts as "". */
  predicate IsTerminationMsg(content: Option<string>, token: string)
    ensures IsTerminationMsg(content, token) ==> |token| <= |content.GetOr("")|
  {
    Text.EndsWith(Text.Lower(content.GetOr("")), token)
  }

  /** The user proxy's `is_termination_msg`. */
  predicate UserProxyIsTermination(content: Option<string>)
    ensures UserProxyIsTermination(content) ==> content.Some? && |content.value| >= 9
  {
    IsTerminationMsg(content, "terminate")
  }

  /** The chat manager's `is_termination_msg`. */
  predicate ManagerIsTermination(content: Option<string>)
    ensures ManagerIsTermination(content) ==> content.Some? && |content.value| >= 17
  {
    IsTerminationMsg(content, "explain_reasoning")
  }

  /** `text.lower() == "terminate"` */
  predicate IsTerminateCommand(text: string)
    ensures IsTerminateCommand(text) ==> |text| == 9
  {
    Text.Lower(text) == "terminate"
  }

  /** A message sent to the chat manager, by the agent named `sender`. */
  datatype Dispatch = Dispatch(sender: string, content: string)

  /** What an operator's line leads to. */
  datatype Action = Forward(text: string) | EndConversation

  /** The branch on an operator's line: "terminate" in any letter case ends
      the conversation; any other line is passed on unchanged. */
  function Route(text: string): (a: Action)
    ensures a == EndConversation <==> IsTerminateCommand(text)
    ensures a.Forward? ==> a.text == text
  {
    if IsTerminateCommand(text) then EndConversation else Forward(text)
  }

  /** The message each branch sends to the manager: the user proxy passes
      the line on; on termination AgentSHV asks for the reasoning. */
  function Sent(a: Action): Dispatch {
    match a
    case Forward(text) => Dispatch("User", text)
    case EndConversation => Dispatch("AgentSHV", "explain_reasoning")
  }

  /** The termination predicates mean "the lower-cased content is some text
      followed by the token"; a missing content never ends a chat. */
  lemma IsTerminationMsg_Iff(content: Option<string>, token: string)
    requires token != ""
    ensures IsTerminationMsg(content, token) <==>
            exists p: string :: p + token == Text.Lower(content.GetOr(""))
    ensures content == None ==> !IsTerminationMsg(content, token)
  {
    Text.EndsWithIffConcat(Text.Lower(content.GetOr("")), token);
  }

  /** The predicates ignore letter case: lower-casing the content first
      changes nothing. */
  lemma IsTerminationMsg_IgnoresCase(text: string, token: string)
    ensures IsTerminationMsg(Some(text), token) <==> IsTerminationMsg(Some(Text.Lower(text)), token)
  {
    LowerIdempotent(text);
  }

  lemma LowerIdempotent(s: string)
    ensures Text.Lower(Text.Lower(s)) == Text.Lower(s)
  {
  }

  /** No content ends both the user proxy and the manager: the two tokens
      end in different letters. */
  lemma TerminationTokens_Exclusive(content: Option<string>)
    ensures !(UserProxyIsTermination(content) && ManagerIsTermination(content))
  {
    var c := Text.Lower(content.GetOr(""));
    if UserProxyIsTermination(content) {
      assert c[|c| - 1] == "terminate"[8] == 'e';
    }
    if ManagerIsTermination(content) {
      assert c[|c| - 1] == "explain_reasoning"[16] == 'g';
    }
  }

  /** The terminate branch is consistent with the predicates: the operator's
      line would also end the user proxy, and the message the branch sends
      ends the manager; a forwarded line is never a terminate command. */
  lemma Route_Consistent(text: string)
    ensures Route(text) == EndConversation ==> UserProxyIsTermination(Some(text))
    ensures Route(text) == EndConversation ==> ManagerIsTermination(Some(Sent(Route(text)).content))
    ensures Route(text).Forward? ==> Sent(Route(text)) == Dispatch("User", text)
    ensures Route(text).Forward? ==> !IsTerminateCommand(text)
  {
    var e := "explain_reasoning";
    assert Text.Lower(e) == e by {
      Text.LowerOfLower(e);
    }
  }
}
