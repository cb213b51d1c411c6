/**
 * The symptom-tracker chat: a conversation that opens with the assistant's
 * greeting, to which each send adds the user's text and then the
 * assistant's reply (or an apology when the server cannot be reached).
 * The server's reply is an input.
 */
module SymptomTracker {
  import opened Http
  import opened Text
  import opened Wrappers

  datatype Role = User | Assistant

  datatype Message = Message(role: Role, text: string)

  const Greeting := Message(Assistant,
    "Hello! I’ll ask you a few questions to understand your symptoms. What symptom are you experiencing first?")

  const Apology := "Sorry, something went wrong. Please try again."

  /**
   * A conversation as the page builds it: the greeting, then pairs of a
   * user message that is not blank and an assistant message.
   */
  ghost predicate Conversation(ms: seq<Message>) {
    && |ms| % 2 == 1
    && ms[0] == Greeting
    && (forall i :: 0 <= i < |ms| ==> (ms[i].role == User <==> i % 2 == 1))
    && (forall i :: 0 <= i < |ms| && ms[i].role == User ==> !IsBlank(ms[i].text))
  }

  /** The assistant's message for the server's answer: its reply, or the apology. */
  function ReplyText(reply: Ext<string>): (r: string)
    ensures reply.Ok? ==> r == reply.value
    ensures reply.Fail? ==> r == Apology
  {
    match reply
    case Ok(text) => text
    case Fail(_) => Apology
  }

  /**
   * One send: nothing when the input is blank, otherwise the conversation
   * posted to the server and the conversation shown afterwards.
   */
  function Exchange(ms: seq<Message>, input: string, reply: Ext<string>): (r: Option<(seq<Message>, seq<Message>)>)
    ensures r.None? <==> IsBlank(input)
    ensures r.Some? ==>
      && r.value.0 == ms + [Message(User, input)]
      && r.value.1 == r.value.0 + [Message(Assistant, ReplyText(reply))]
      && |r.value.1| == |ms| + 2
  {
    if IsBlank(input) then None
    else
      var sent := ms + [Message(User, input)];
      Some((sent, sent + [Message(Assistant, ReplyText(reply))]))
  }

  /** A send keeps the shape of the conversation and leaves the earlier messages as they were. */
  lemma ExchangeKeepsConversation(ms: seq<Message>, input: string, reply: Ext<string>)
    requires Conversation(ms)
    requires !IsBlank(input)
    ensures Conversation(Exchange(ms, input, reply).value.1)
    ensures Exchange(ms, input, reply).value.1[..|ms|] == ms
  {
    var after := Exchange(ms, input, reply).value.1;
    assert after == ms + [Message(User, input), Message(Assistant, ReplyText(reply))];
    forall i | 0 <= i < |after|
      ensures after[i].role == User <==> i % 2 == 1
      ensures after[i].role == User ==> !IsBlank(after[i].text)
    {
      if i < |ms| {
        assert after[i] == ms[i];
      }
    }
  }

  /** The page's state. */
  class Chat {
    var messages: seq<Message>
    var input: string
    var loading: bool

    ghost predicate Valid()
      reads this
    {
      Conversation(messages)
    }

    constructor ()
      ensures messages == [Greeting] && input == "" && !loading
      ensures Valid()
    {
      messages := [Greeting];
      input := "";
      loading := false;
    }

    /**
     * `sendMessage`. `reply` is the server's answer to the posted
     * conversation; `sent` is that conversation (nothing when the input
     * is blank and no request is made).
     */
    method SendMessage(reply: Ext<string>) returns (sent: Option<seq<Message>>)
      requires Valid()
      modifies this
      ensures IsBlank(old(input)) ==>
        sent.None? && messages == old(messages) && input == old(input) && loading == old(loading)
      ensures !IsBlank(old(input)) ==>
        && sent == Some(old(messages) + [Message(User, old(input))])
        && messages == sent.value + [Message(Assistant, ReplyText(reply))]
        && input == "" && !loading
      ensures Valid()
    {
      TrimEmptyIffBlank(input);
      if Trim(input) == "" {
        return None;
      }
      ExchangeKeepsConversation(messages, input, reply);
      var updated := messages + [Message(User, input)];
      messages := updated;
      input := "";
      loading := true;
      match reply {
        case Ok(text) =>
          messages := updated + [Message(Assistant, text)];
        case Fail(_) =>
          messages := updated + [Message(Assistant, Apology)];
      }
      loading := false;
      return Some(updated);
    }
  }
}
