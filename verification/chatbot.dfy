/** The chat widget: a log of messages that only grows, an input field, a
    pending flag while a question is out, and the open/close button. A
    submit is split into the step that takes the question and the step that
    receives the action's result. */
module ChatbotWidget {
  import opened Wrappers
  import opened JsString
  import opened FlowShapes
  import opened Actions

  datatype Sender = User | Bot

  datatype Message = Message(sender: Sender, text: string)

  const ConnectionTrouble := "Sorry, I'm having trouble connecting. Please try again later."
  const NoAnswer := "I'm not sure how to respond to that."

  /** The bot's line for an action result: a fixed apology when there is an
      error, otherwise the answer, or a fixed fallback when it is empty. */
  function BotReply(result: ActionResult<string>): (text: string)
    ensures text != ""
    ensures text == ConnectionTrouble || text == NoAnswer || Some(text) == result.data
    ensures result.error.Some? && result.error.value != "" ==> text == ConnectionTrouble
    ensures result.error == None && result.data.Some? && result.data.value != "" ==> text == result.data.value
    ensures result.error == None && (result.data == None || result.data == Some("")) ==> text == NoAnswer
  {
    if result.error.Some? && Truthy(result.error.value) then ConnectionTrouble
    else if result.data.Some? && Truthy(result.data.value) then result.data.value
    else NoAnswer
  }

  /** How many messages of the log came from `sender`. */
  function CountFrom(messages: seq<Message>, sender: Sender): nat {
    if messages == [] then 0
    else CountFrom(messages[..|messages| - 1], sender) +
         (if messages[|messages| - 1].sender == sender then 1 else 0)
  }

  lemma CountAppended(messages: seq<Message>, m: Message, sender: Sender)
    ensures CountFrom(messages + [m], sender) ==
            CountFrom(messages, sender) + (if m.sender == sender then 1 else 0)
  {
    assert (messages + [m])[..|messages|] == messages;
  }

  /** Every line is the user's or the bot's. */
  lemma {:induction false} SendersPartition(messages: seq<Message>)
    ensures CountFrom(messages, User) + CountFrom(messages, Bot) == |messages|
  {
    if messages != [] {
      SendersPartition(messages[..|messages| - 1]);
    }
  }

  /** A user line is never blank and a bot line never empty. */
  predicate WellFormedMessage(m: Message) {
    if m.sender == User then !IsBlank(m.text) else m.text != ""
  }

  /** Whether a submit goes through: the input has more than white space and
      no question is out. */
  predicate SubmitAccepted(input: string, isPending: bool) {
    Trim(input) != "" && !isPending
  }

  /** Questions and replies take turns, starting with a question. */
  predicate Alternates(messages: seq<Message>) {
    forall i :: 0 <= i < |messages| ==> messages[i].sender == (if i % 2 == 0 then User else Bot)
  }

  /** The widget's log as its handlers leave it: every line is well formed,
      each question is followed at once by its reply, and only the last
      question, the one that is out, may still lack one. */
  predicate LogValid(messages: seq<Message>, isPending: bool) {
    && (forall i :: 0 <= i < |messages| ==> WellFormedMessage(messages[i]))
    && Alternates(messages)
    && (|messages| % 2 == 1 <==> isPending)
  }

  /** In an alternating log the questions outnumber the replies by one when
      its length is odd and match them when it is even. */
  lemma {:induction false} AlternatingCounts(messages: seq<Message>)
    requires Alternates(messages)
    ensures CountFrom(messages, User) == CountFrom(messages, Bot) + |messages| % 2
  {
    if messages != [] {
      var n := |messages|;
      var init := messages[..n - 1];
      assert forall i :: 0 <= i < |init| ==> init[i] == messages[i];
      AlternatingCounts(init);
      if (n - 1) % 2 == 0 {
        assert messages[n - 1].sender == User && n % 2 == 1;
      } else {
        assert messages[n - 1].sender == Bot && n % 2 == 0;
      }
    }
  }

  /** Every question but the one that is out has had exactly one reply: the
      log holds as many replies as answered questions, twice that many lines
      plus the pending question, and that question is the last line. */
  lemma LogLength(messages: seq<Message>, isPending: bool)
    requires LogValid(messages, isPending)
    ensures CountFrom(messages, User) == CountFrom(messages, Bot) + (if isPending then 1 else 0)
    ensures |messages| == 2 * CountFrom(messages, Bot) + (if isPending then 1 else 0)
    ensures isPending ==> messages != [] && messages[|messages| - 1].sender == User
  {
    AlternatingCounts(messages);
    SendersPartition(messages);
    if isPending {
      assert (|messages| - 1) % 2 == 0;
    }
  }

  /** Logging an accepted question keeps the log valid and puts a question out. */
  lemma QuestionKeepsLogValid(messages: seq<Message>, input: string)
    requires LogValid(messages, false) && Trim(input) != ""
    ensures LogValid(messages + [Message(User, input)], true)
  {
    var m := Message(User, input);
    assert WellFormedMessage(m) by {
      TrimEmptyIffBlank(input);
    }
    var logged := messages + [m];
    assert forall i :: 0 <= i < |messages| ==> logged[i] == messages[i];
    assert logged[|messages|] == m && |messages| % 2 == 0;
  }

  /** Logging the reply to the question that is out keeps the log valid and
      leaves no question out. */
  lemma ReplyKeepsLogValid(messages: seq<Message>, reply: string)
    requires LogValid(messages, true) && reply != ""
    ensures LogValid(messages + [Message(Bot, reply)], false)
  {
    var m := Message(Bot, reply);
    assert forall i :: 0 <= i < |messages| ==> (messages + [m])[i] == messages[i];
    assert |messages| % 2 == 1;
  }

  class Chatbot {
    var isOpen: bool
    var messages: seq<Message>
    var input: string
    var isPending: bool

    ghost predicate Valid()
      reads this
    {
      LogValid(messages, isPending)
    }

    constructor()
      ensures Valid()
      ensures !isOpen && messages == [] && input == "" && !isPending
    {
      isOpen := false;
      messages := [];
      input := "";
      isPending := false;
    }

    /** The open/close button. */
    method Toggle()
      modifies this
      ensures isOpen == !old(isOpen)
      ensures messages == old(messages) && input == old(input) && isPending == old(isPending)
    {
      isOpen := !isOpen;
    }

    /** Typing into the field. */
    method SetInput(text: string)
      modifies this
      ensures input == text
      ensures isOpen == old(isOpen) && messages == old(messages) && isPending == old(isPending)
    {
      input := text;
    }

    /** The first step of `handleSubmit`: a blank input or a question already
        out is ignored; otherwise the raw input is logged as the user's line,
        the field is cleared and the question, as typed, is sent. */
    method Submit() returns (question: Option<string>)
      requires Valid()
      modifies this
      ensures Valid()
      ensures !SubmitAccepted(old(input), old(isPending)) ==>
                question == None && messages == old(messages) && input == old(input) &&
                isPending == old(isPending)
      ensures SubmitAccepted(old(input), old(isPending)) ==>
                question == Some(old(input)) &&
                messages == old(messages) + [Message(User, old(input))] &&
                input == "" && isPending
      ensures isOpen == old(isOpen)
    {
      if Trim(input) == "" || isPending {
        return None;
      }
      QuestionKeepsLogValid(messages, input);
      question := Some(input);
      messages := messages + [Message(User, input)];
      input := "";
      isPending := true;
    }

    /** The second step: the action's result becomes exactly one bot line
        and the question is no longer out. */
    method Resolve(result: ActionResult<string>)
      requires Valid() && isPending
      modifies this
      ensures Valid()
      ensures messages == old(messages) + [Message(Bot, BotReply(result))]
      ensures !isPending
      ensures isOpen == old(isOpen) && input == old(input)
    {
      ReplyKeepsLogValid(messages, BotReply(result));
      messages := messages + [Message(Bot, BotReply(result))];
      isPending := false;
    }

    /** The whole `handleSubmit` with the chatbot action answering at once:
        an accepted submit adds the question and then the reply after every
        earlier line. */
    method HandleSubmit(generate: string -> Outcome<ChatbotOutput>)
      requires Valid()
      modifies this
      ensures Valid() && isPending == old(isPending)
      ensures !SubmitAccepted(old(input), old(isPending)) ==>
                messages == old(messages) && input == old(input)
      ensures SubmitAccepted(old(input), old(isPending)) ==>
                messages == old(messages) +
                  [Message(User, old(input)), Message(Bot, BotReply(AskChatbotAction(generate, old(input))))] &&
                input == ""
      ensures isOpen == old(isOpen)
    {
      var question := Submit();
      if question.Some? {
        var result := AskChatbotAction(generate, question.value);
        Resolve(result);
      }
    }
  }

  /** The chatbot action on a non-empty question: the reply is the answer,
      the fallback for an empty answer, or the apology when the generator
      fails, and never the "enter a question" error. */
  lemma ReplyToQuestion(generate: string -> Outcome<ChatbotOutput>, question: string)
    requires question != ""
    ensures AskChatbotAction(generate, question).error != Some(QuestionRequired)
    ensures BotReply(AskChatbotAction(generate, question)) ==
              if generate(question).Fail? then ConnectionTrouble
              else if generate(question).value.answer != "" then generate(question).value.answer
              else NoAnswer
  {
    if generate(question).Fail? {
      assert |ChatbotUnavailable| != |QuestionRequired|;
    }
  }

  /** A question the widget sends has passed the blank check, so it is never
      empty and the reply is as above. */
  lemma ReplyToSubmittedQuestion(generate: string -> Outcome<ChatbotOutput>, question: string)
    requires Trim(question) != ""
    ensures AskChatbotAction(generate, question).error != Some(QuestionRequired)
    ensures BotReply(AskChatbotAction(generate, question)) ==
              if generate(question).Fail? then ConnectionTrouble
              else if generate(question).value.answer != "" then generate(question).value.answer
              else NoAnswer
  {
    ReplyToQuestion(generate, question);
  }
}
