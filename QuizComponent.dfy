/** The `Quiz` component as an object whose handlers update its state in
    place. Each method does what the handler of the same name does, step by
    step, and its contract ties the new state to the function of the same
    name in `QuizState`, where the handler's properties are stated. */
module QuizComponent {
  import opened Text
  import opened QuizState

  class Quiz {
    var messages: seq<Message>
    var currentInput: string
    var step: Step
    var quizData: QuizData
    var webhookUrl: string
    var isLoading: bool

    /** The component's state as a value. */
    function Snapshot(): State
      reads this
    {
      State(messages, currentInput, step, quizData, webhookUrl, isLoading)
    }

    constructor (now: Instant)
      ensures Snapshot() == Initial(now)
    {
      messages := [WelcomeMessage(now)];
      currentInput := "";
      step := Name;
      quizData := QuizData("", "");
      webhookUrl := "";
      isLoading := false;
    }

    method AddMessage(text: string, isBot: bool, now: Instant)
      modifies this
      ensures old(messages) <= messages
      ensures Snapshot() == QuizState.AddMessage(old(Snapshot()), text, isBot, now)
    {
      var newMessage := Message(now, text, isBot, now);
      messages := messages + [newMessage];
    }

    /** The input field's `onChange`. */
    method SetCurrentInput(text: string)
      modifies this
      ensures Snapshot() == OnInputChange(old(Snapshot()), text)
    {
      currentInput := text;
    }

    /** Returns the text handed to the reply timer, if any. */
    method HandleSubmit(now: Instant) returns (scheduled: Option<string>)
      modifies this
      ensures old(messages) <= messages
      ensures Transition(Snapshot(), scheduled) == QuizState.HandleSubmit(old(Snapshot()), now)
    {
      if Trim(currentInput) == [] {
        return None;
      }
      var userMessage := Trim(currentInput);
      AddMessage(userMessage, false, now);
      currentInput := "";
      scheduled := Some(userMessage);
    }

    /** Returns the `fetch` it started, if any. */
    method HandleBotResponse(userInput: string, now: Instant) returns (request: Option<Request>)
      modifies this
      ensures old(messages) <= messages
      ensures Transition(Snapshot(), request) == QuizState.HandleBotResponse(old(Snapshot()), userInput, now)
    {
      request := None;
      match step
      case Name =>
        quizData := quizData.(nome := userInput);
        AddMessage(GreetingText(userInput), true, now);
        step := Phone;
      case Phone =>
        quizData := quizData.(telefone := userInput);
        AddMessage(WebhookPromptText, true, now);
        step := Webhook;
      case Webhook =>
        webhookUrl := userInput;
        AddMessage(SendingText, true, now);
        var started := SendToWebhook(userInput, now);
        request := Some(started);
      case Completed =>
    }

    /** Raises the loading flag and returns the POST it starts. */
    method SendToWebhook(url: string, now: Instant) returns (request: Request)
      modifies this
      ensures isLoading
      ensures Transition(Snapshot(), request) == QuizState.SendToWebhook(old(Snapshot()), url, now)
    {
      isLoading := true;
      var dataToSend := DataToSend(quizData, now);
      request := Request(url, dataToSend);
    }

    /** Returns whether the success timer was scheduled. */
    method FinishSend(outcome: SendOutcome, now: Instant) returns (successScheduled: bool)
      modifies this
      ensures !isLoading
      ensures old(messages) <= messages
      ensures Transition(Snapshot(), successScheduled) == QuizState.FinishSend(old(Snapshot()), outcome, now)
    {
      match outcome {
        case Resolved =>
          successScheduled := true;
        case Threw =>
          AddMessage(ErrorText, true, now);
          step := Webhook;
          successScheduled := false;
      }
      isLoading := false;
    }

    method OnSendSuccess(now: Instant)
      modifies this
      ensures step == Completed
      ensures old(messages) <= messages
      ensures Snapshot() == QuizState.OnSendSuccess(old(Snapshot()), now)
    {
      AddMessage(SuccessText(quizData.nome), true, now);
      step := Completed;
    }

    method ResetQuiz(now: Instant)
      modifies this
      ensures messages == [WelcomeMessage(now)]
      ensures Snapshot() == QuizState.ResetQuiz(old(Snapshot()), now)
    {
      messages := [WelcomeMessage(now)];
      step := Name;
      quizData := QuizData("", "");
      webhookUrl := "";
      currentInput := "";
    }
  }
}
