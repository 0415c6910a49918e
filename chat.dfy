/** The turn handler of the chat window: a send appends the user's message and
    exactly one assistant message to the transcript, and updates the trip
    context, unless the input is blank. */
module Chat {
  import opened Wrappers
  import opened Text
  import opened TripContext
  import opened Classifier

  datatype Sender = User | Ai

  /** One entry of the transcript; only assistant messages carry feature tags. */
  datatype Message = Message(id: int, text: string, sender: Sender, features: Option<seq<string>>)

  const GreetingText: string :=
    "Hi! I'm your AI travel assistant. I can "
    + "help you with trip planning, weather "
    + "insights, cultural tips, budget "
    + "optimization, and real-time travel "
    + "adjustments. Where would you like to go?"

  /** The assistant's opening message, which every transcript starts with. */
  function Greeting(): Message {
    Message(1, GreetingText, Ai, Some(["weather", "culture", "budget", "planning"]))
  }

  const ErrorText: string :=
    "I'm sorry, I encountered an error. "
    + "Please try again!"

  /** The reply to the raw text of a user message. */
  function ReplyTo(userMessage: string): Reply {
    GenerateReply(ToLower(userMessage))
  }

  /** How producing the reply ended: with a reply, or by throwing. */
  datatype Outcome = Replied(reply: Reply) | Threw

  /** The assistant message of an accepted turn: the reply, or the fixed error
      message when producing the reply threw. */
  function AssistantMessage(id: int, outcome: Outcome): Message {
    match outcome
    case Replied(r) => Message(id, r.text, Ai, Some(r.features))
    case Threw => Message(id, ErrorText, Ai, Some(["error"]))
  }

  /** The messages one send appends to `history`: nothing for blank input,
      otherwise the user's message, untrimmed, and one assistant message. */
  function TurnMessages(history: seq<Message>, input: string, outcome: Outcome): seq<Message> {
    if IsBlank(input) then []
    else [Message(|history| + 1, input, User, None), AssistantMessage(|history| + 2, outcome)]
  }

  /** The transcript invariant: it opens with the greeting, the ids are 1, 2, 3, ...
      in order, user and assistant messages alternate after the greeting so that
      every user message is directly answered by one assistant message, no user
      message is blank, and exactly the assistant messages carry features. */
  ghost predicate WellFormed(ms: seq<Message>) {
    |ms| % 2 == 1 && ms[0] == Greeting()
    && (forall i :: 0 <= i < |ms| ==> ms[i].id == i + 1)
    && (forall i :: 0 <= i < |ms| ==> (ms[i].sender == User <==> i % 2 == 1))
    && (forall i :: 0 <= i < |ms| ==> (ms[i].features.Some? <==> ms[i].sender == Ai))
    && (forall i :: 0 <= i < |ms| && ms[i].sender == User ==> !IsBlank(ms[i].text))
  }

  /** A send keeps the transcript well formed. */
  lemma TurnPreservesWellFormed(ms: seq<Message>, input: string, outcome: Outcome)
    requires WellFormed(ms)
    ensures WellFormed(ms + TurnMessages(ms, input, outcome))
  {
    var t := TurnMessages(ms, input, outcome);
    var ms' := ms + t;
    forall i | |ms| <= i < |ms'| ensures ms'[i] == t[i - |ms|] {
    }
  }

  /** The number of messages from `who`. */
  function CountFrom(ms: seq<Message>, who: Sender): nat {
    if ms == [] then 0
    else CountFrom(ms[..|ms| - 1], who) + (if ms[|ms| - 1].sender == who then 1 else 0)
  }

  lemma {:induction false} CountFromAppend(ms: seq<Message>, t: seq<Message>, who: Sender)
    ensures CountFrom(ms + t, who) == CountFrom(ms, who) + CountFrom(t, who)
    decreases |t|
  {
    if t != [] {
      assert (ms + t)[..|ms + t| - 1] == ms + t[..|t| - 1];
      CountFromAppend(ms, t[..|t| - 1], who);
    } else {
      assert ms + t == ms;
    }
  }

  lemma CountFromPair(a: Message, b: Message, who: Sender)
    ensures CountFrom([a, b], who) == (if a.sender == who then 1 else 0) + (if b.sender == who then 1 else 0)
  {
    assert [a, b][..1] == [a] && [a][..0] == [];
    assert CountFrom([a], who) == CountFrom([], who) + (if a.sender == who then 1 else 0);
  }

  /** At most one reply per send: an accepted send adds one user message and
      one assistant message, a blank one adds none. */
  lemma OneReplyPerTurn(ms: seq<Message>, input: string, outcome: Outcome)
    ensures CountFrom(TurnMessages(ms, input, outcome), Ai) == (if IsBlank(input) then 0 else 1)
    ensures CountFrom(TurnMessages(ms, input, outcome), User) == (if IsBlank(input) then 0 else 1)
  {
    var t := TurnMessages(ms, input, outcome);
    if !IsBlank(input) {
      CountFromPair(t[0], t[1], Ai);
      CountFromPair(t[0], t[1], User);
    }
  }

  /** In a well-formed transcript there is exactly one assistant message per
      user message, besides the greeting. */
  lemma {:induction false} RepliesMatchRequests(ms: seq<Message>)
    requires WellFormed(ms)
    ensures CountFrom(ms, Ai) == CountFrom(ms, User) + 1
    decreases |ms|
  {
    if |ms| == 1 {
      assert ms[..0] == [];
    } else {
      var n := |ms|;
      var prefix := ms[..n - 2];
      var last := ms[n - 2..];
      assert ms == prefix + last;
      assert WellFormed(prefix) by {
        assert prefix[0] == ms[0];
        assert forall i :: 0 <= i < n - 2 ==> prefix[i] == ms[i];
      }
      RepliesMatchRequests(prefix);
      CountFromAppend(prefix, last, Ai);
      CountFromAppend(prefix, last, User);
      assert last == [ms[n - 2], ms[n - 1]];
      assert ms[n - 2].sender == User && ms[n - 1].sender == Ai;
      CountFromPair(ms[n - 2], ms[n - 1], Ai);
      CountFromPair(ms[n - 2], ms[n - 1], User);
    }
  }

  /** The chat window's state: the transcript, the text box, the pending flag
      and the trip context. */
  class ChatSession {
    var messages: seq<Message>
    var inputText: string
    var isLoading: bool
    var context: Context

    /** Between sends the transcript is well formed and nothing is pending. */
    ghost predicate Valid()
      reads this
    {
      WellFormed(messages) && !isLoading
    }

    constructor ()
      ensures Valid()
      ensures messages == [Greeting()] && inputText == [] && context == InitialContext()
    {
      messages := [Greeting()];
      inputText := [];
      isLoading := false;
      context := InitialContext();
    }

    /** The text box's change handler. */
    method SetInputText(text: string)
      requires Valid()
      modifies this`inputText
      ensures Valid() && inputText == text
    {
      inputText := text;
    }

    /** The reply to one user message, recording in the context what the
        message mentions. */
    method GenerateAIResponse(userMessage: string) returns (reply: Reply)
      modifies this`context
      ensures context == Merge(old(context), ToLower(userMessage))
      ensures reply == ReplyTo(userMessage)
    {
      var lower := ToLower(userMessage);
      var updated, found := ExtractContext(lower, context);
      context := updated;
      var c := Classify(lower);
      reply := Reply(Template(c, found), FeaturesOf(c));
    }

    /** Sends the text box's content. Blank input changes nothing; otherwise the
        user's message and one assistant message are appended, the text box is
        cleared and the pending flag is cleared again. `failure` stands for the
        reply generation throwing, in which case the error message is appended
        and the context is left as it was. */
    method SendMessage(failure: bool)
      requires Valid()
      modifies this`messages, this`inputText, this`isLoading, this`context
      ensures Valid()
      ensures messages == old(messages) + TurnMessages(old(messages), old(inputText),
                                                       if failure then Threw else Replied(ReplyTo(old(inputText))))
      ensures inputText == if IsBlank(old(inputText)) then old(inputText) else []
      ensures IsBlank(old(inputText)) || failure ==> context == old(context)
      ensures !IsBlank(old(inputText)) && !failure ==> context == Merge(old(context), ToLower(old(inputText)))
    {
      var blank := TrimmedIsEmpty(inputText);
      if !blank {
        Accept(failure);
      }
    }

    /** The part of a send after the blank-input guard. */
    method Accept(failure: bool)
      requires Valid() && !IsBlank(inputText)
      modifies this`messages, this`inputText, this`isLoading, this`context
      ensures Valid()
      ensures messages == old(messages) + TurnMessages(old(messages), old(inputText),
                                                       if failure then Threw else Replied(ReplyTo(old(inputText))))
      ensures inputText == []
      ensures failure ==> context == old(context)
      ensures !failure ==> context == Merge(old(context), ToLower(old(inputText)))
    {
      var text := inputText;
      var n := |messages|;
      messages := messages + [Message(n + 1, text, User, None)];
      inputText := [];
      isLoading := true;
      var outcome := Threw;
      if !failure {
        var reply := GenerateAIResponse(text);
        outcome := Replied(reply);
      }
      messages := messages + [AssistantMessage(n + 2, outcome)];
      isLoading := false;
      assert messages == old(messages) + TurnMessages(old(messages), text, outcome);
      TurnPreservesWellFormed(old(messages), text, outcome);
    }
  }
}
