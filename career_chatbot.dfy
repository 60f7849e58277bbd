/** The career chatbot: a transcript that starts with a greeting, grows by the
    user's message when a send is accepted, and then by the assistant's reply or a
    fixed error message. The chat route is an input: the reply text it gives, if any. */
module Chat {
  import opened Wrappers
  import opened Text

  datatype Role = User | Assistant

  datatype Message = Message(role: Role, content: string)

  const Greeting := Message(Assistant, "Hi \U{1F44B} I'm your AI Career Coach. Ask me about jobs, skills, or how to prepare for your role.")

  const ErrorText := "\U{26A0}\U{FE0F} Something went wrong. Please try again."

  /** The assistant message appended once the request settles: a truthy `reply`, or
      the error text when there is none (a failed request, a body without `reply`, or
      an empty one). */
  function ReplyMessage(reply: Option<string>): (m: Message)
    ensures m.role == Assistant
    ensures reply.Some? && reply.value != "" ==> m.content == reply.value
    ensures reply.None? || reply.value == "" ==> m.content == ErrorText
  {
    if reply.Some? && reply.value != "" then Message(Assistant, reply.value) else Message(Assistant, ErrorText)
  }

  /** A send is accepted when the input is not blank and no request is in flight. */
  predicate Accepts(input: string, loading: bool) {
    !IsBlank(input) && !loading
  }

  class Chatbot {
    var messages: seq<Message>
    var input: string
    var loading: bool

    /** The greeting stays first, and while a request is in flight the last message
        is the user's. */
    predicate Valid()
      reads this
    {
      |messages| >= 1 && messages[0] == Greeting &&
      (loading ==> |messages| >= 2 && messages[|messages| - 1].role == User)
    }

    constructor ()
      ensures Valid()
      ensures messages == [Greeting] && input == "" && !loading
    {
      messages := [Greeting];
      input := "";
      loading := false;
    }

    /** Typing into the input box. */
    method SetInput(text: string)
      requires Valid()
      modifies this
      ensures Valid()
      ensures input == text && messages == old(messages) && loading == old(loading)
    {
      input := text;
    }

    /** The synchronous part of `sendMessage`: a blank input or a request in flight
        changes nothing and sends nothing; otherwise the user's message, untrimmed,
        is appended, the input is cleared, loading starts, and the request carries the
        transcript as it was followed by that message. */
    method Submit() returns (request: Option<seq<Message>>)
      requires Valid()
      modifies this
      ensures Valid()
      ensures !Accepts(old(input), old(loading)) ==>
        request.None? && messages == old(messages) && input == old(input) && loading == old(loading)
      ensures Accepts(old(input), old(loading)) ==>
        && request == Some(old(messages) + [Message(User, old(input))])
        && messages == request.value && input == "" && loading
    {
      if IsBlank(input) || loading {
        return None;
      }
      var userMessage := Message(User, input);
      request := Some(messages + [userMessage]);
      messages := messages + [userMessage];
      input := "";
      loading := true;
    }

    /** The request settles: one assistant message is appended and loading ends;
        whatever was typed meanwhile stays in the input. */
    method Receive(reply: Option<string>)
      requires Valid() && loading
      modifies this
      ensures Valid()
      ensures messages == old(messages) + [ReplyMessage(reply)]
      ensures !loading && input == old(input)
    {
      messages := messages + [ReplyMessage(reply)];
      loading := false;
    }

    /** `sendMessage` from click to settled request: an accepted send grows the
        transcript by exactly the user's message and one assistant message, and
        ends with loading off. */
    method SendMessage(reply: Option<string>) returns (request: Option<seq<Message>>)
      requires Valid()
      modifies this
      ensures Valid()
      ensures request.None? <==> !Accepts(old(input), old(loading))
      ensures request.None? ==> messages == old(messages) && input == old(input) && loading == old(loading)
      ensures request.Some? ==>
        && request.value == old(messages) + [Message(User, old(input))]
        && messages == request.value + [ReplyMessage(reply)]
        && |messages| == |old(messages)| + 2
        && input == "" && !loading
    {
      request := Submit();
      if request.Some? {
        Receive(reply);
      }
    }
  }
}
