/** The state of the `Quiz` chat component and its event handlers, each as a
    function from the state before the event to the state after it. The
    component is a four-step conversation, name -> phone -> webhook ->
    completed, that collects a name and a phone number and posts them to a
    webhook URL the user types in. */
module QuizState {
  import opened Text

  /** A reading of the browser clock in milliseconds (`Date.now()`,
      `new Date()`). Nothing is assumed about it: two readings may coincide. */
  type Instant = int

  datatype Option<T> = None | Some(value: T)

  /** One line of the chat transcript. The source takes `id` from the clock. */
  datatype Message = Message(id: int, text: string, isBot: bool, timestamp: Instant)

  /** The collected lead: name (`nome`) and phone number (`telefone`). */
  datatype QuizData = QuizData(nome: string, telefone: string)

  datatype Step = Name | Phone | Webhook | Completed

  /** The JSON object `dataToSend` posted to the webhook. */
  datatype Payload = Payload(nome: string, telefone: string, timestamp: Instant, origem: string)

  /** One `fetch` the component starts: destination URL and body. */
  datatype Request = Request(url: string, body: Payload)

  /** How an outstanding `fetch` ends: its promise resolves, or it throws. */
  datatype SendOutcome = Resolved | Threw

  /** The six pieces of component state, named as in the source. */
  datatype State = State(
    messages: seq<Message>,
    currentInput: string,
    step: Step,
    quizData: QuizData,
    webhookUrl: string,
    isLoading: bool)

  /** A handler's new state together with what it handed to the browser:
      the argument of a scheduled timer, a started `fetch`, ... */
  datatype Transition<E> = Transition(state: State, effect: E)

  // The bot's lines, as in the source.
  const WelcomeText := "Olá! Seja bem-vindo! \U{1F44B} Para começar, qual é o seu nome?"
  const WebhookPromptText := "Perfeito! Agora preciso da URL do webhook do seu n8n para enviar os dados:"
  const SendingText := "Ótimo! Agora vou enviar seus dados para o n8n. Aguarde um momento..."
  const ErrorText := "\U{274C} Ops! Houve um erro ao enviar os dados. Verifique a URL do webhook e tente novamente."
  /** The fixed `origem` tag of every payload. */
  const Origin := "Quiz Lovable"

  /** The reply to a name: it greets the user by that name. */
  function GreetingText(nome: string): (r: string)
    ensures Contains(r, nome)
  {
    ContainsMiddle("Prazer em conhecê-lo, ", nome, "! \U{1F60A} Agora, pode me informar seu telefone?");
    "Prazer em conhecê-lo, " + nome + "! \U{1F60A} Agora, pode me informar seu telefone?"
  }

  /** The closing message after a send: it thanks the user by name. */
  function SuccessText(nome: string): (r: string)
    ensures Contains(r, nome)
  {
    ContainsMiddle("\U{2705} Dados enviados com sucesso! Obrigado ", nome,
                   ", seus dados foram registrados em nossa planilha!");
    "\U{2705} Dados enviados com sucesso! Obrigado " + nome + ", seus dados foram registrados em nossa planilha!"
  }

  predicate OccursAt(text: string, part: string, i: nat) {
    i + |part| <= |text| && text[i..i + |part|] == part
  }

  /** `part` appears somewhere in `text`. */
  ghost predicate Contains(text: string, part: string) {
    exists i: nat :: OccursAt(text, part, i)
  }

  lemma ContainsMiddle(prefix: string, part: string, suffix: string)
    ensures Contains(prefix + part + suffix, part)
  {
    var text := prefix + part + suffix;
    assert text[|prefix|..|prefix| + |part|] == part;
    assert OccursAt(text, part, |prefix|);
  }

  function Last(ms: seq<Message>): Message
    requires ms != []
  {
    ms[|ms| - 1]
  }

  /** The transcript of `r` is that of `s` with exactly one message added at
      the end; the messages already there are untouched. */
  predicate AppendsOne(s: State, r: State) {
    |r.messages| == |s.messages| + 1 && r.messages[..|s.messages|] == s.messages
  }

  /** A bot message sent at `now`. */
  predicate IsBotMessage(m: Message, text: string, now: Instant) {
    m.isBot && m.text == text && m.id == now && m.timestamp == now
  }

  function WelcomeMessage(now: Instant): Message {
    Message(1, WelcomeText, true, now)
  }

  /** The transcript begins with the welcome message. */
  predicate StartsWithWelcome(s: State) {
    s.messages != [] && s.messages[0].id == 1 && s.messages[0].isBot && s.messages[0].text == WelcomeText
  }

  /** The initial values of the component's state hooks. */
  function Initial(now: Instant): (s: State)
    ensures StartsWithWelcome(s) && |s.messages| == 1
    ensures s.step == Name && !s.isLoading
  {
    State([WelcomeMessage(now)], "", Name, QuizData("", ""), "", false)
  }

  /** `addMessage`: one new message, with the clock reading as id and time,
      goes at the end of the transcript; nothing else changes. */
  function AddMessage(s: State, text: string, isBot: bool, now: Instant): (r: State)
    ensures AppendsOne(s, r)
    ensures Last(r.messages) == Message(now, text, isBot, now)
    ensures r.(messages := s.messages) == s
  {
    s.(messages := s.messages + [Message(now, text, isBot, now)])
  }

  /** The input field's `onChange`. */
  function OnInputChange(s: State, text: string): (r: State)
    ensures r.currentInput == text
    ensures r.(currentInput := s.currentInput) == s
  {
    s.(currentInput := text)
  }

  /** `handleSubmit`. Input that is all white space is ignored. Otherwise the
      trimmed input becomes a user message, the input field is cleared, and
      the trimmed text is handed to the timer that will call
      `handleBotResponse` (the effect). */
  function HandleSubmit(s: State, now: Instant): (t: Transition<Option<string>>)
    ensures AllWhitespace(s.currentInput) ==> t == Transition(s, None)
    ensures !AllWhitespace(s.currentInput) ==>
              && t.effect == Some(Trim(s.currentInput))
              && t.effect.value != [] && IsTrimmed(t.effect.value)
              && AppendsOne(s, t.state)
              && Last(t.state.messages) == Message(now, t.effect.value, false, now)
              && t.state.currentInput == ""
              && t.state == s.(messages := t.state.messages, currentInput := "")
  {
    if Trim(s.currentInput) == [] then
      Transition(s, None)
    else
      var userMessage := Trim(s.currentInput);
      Transition(AddMessage(s, userMessage, false, now).(currentInput := ""), Some(userMessage))
  }

  /** The payload suits the record: the same name and phone, the fixed origin tag. */
  predicate CarriesRecord(p: Payload, d: QuizData) {
    p.nome == d.nome && p.telefone == d.telefone && p.origem == Origin
  }

  /** `dataToSend`. */
  function DataToSend(d: QuizData, now: Instant): (p: Payload)
    ensures CarriesRecord(p, d) && p.timestamp == now
  {
    Payload(d.nome, d.telefone, now, Origin)
  }

  /** `sendToWebhook` up to its `await fetch(...)`: the loading flag goes up
      and the POST of `dataToSend` to `url` starts. */
  function SendToWebhook(s: State, url: string, now: Instant): (t: Transition<Request>)
    ensures t.state.isLoading
    ensures t.state.(isLoading := s.isLoading) == s
    ensures t.effect.url == url && CarriesRecord(t.effect.body, s.quizData)
  {
    Transition(s.(isLoading := true), Request(url, DataToSend(s.quizData, now)))
  }

  /** `handleBotResponse`, run by the timer `handleSubmit` scheduled. Each
      step stores the input, posts one bot reply and moves on; the webhook
      step also starts the send (the effect); the completed step ignores it. */
  function HandleBotResponse(s: State, userInput: string, now: Instant): (t: Transition<Option<Request>>)
    ensures s.step == Completed ==> t == Transition(s, None)
    ensures s.step != Completed ==>
              && AppendsOne(s, t.state)
              && t.state.currentInput == s.currentInput
    ensures s.step == Name ==>
              && t.state.step == Phone
              && t.state.quizData == QuizData(userInput, s.quizData.telefone)
              && IsBotMessage(Last(t.state.messages), GreetingText(userInput), now)
              && Contains(Last(t.state.messages).text, userInput)
              && t.state.webhookUrl == s.webhookUrl && t.state.isLoading == s.isLoading
              && t.effect == None
    ensures s.step == Phone ==>
              && t.state.step == Webhook
              && t.state.quizData == QuizData(s.quizData.nome, userInput)
              && IsBotMessage(Last(t.state.messages), WebhookPromptText, now)
              && t.state.webhookUrl == s.webhookUrl && t.state.isLoading == s.isLoading
              && t.effect == None
    ensures s.step == Webhook ==>
              && t.state.step == Webhook
              && t.state.quizData == s.quizData
              && t.state.webhookUrl == userInput
              && IsBotMessage(Last(t.state.messages), SendingText, now)
              && t.state.isLoading
              && t.effect.Some? && t.effect.value.url == userInput
              && CarriesRecord(t.effect.value.body, s.quizData)
  {
    match s.step
    case Name =>
      var stored := s.(quizData := s.quizData.(nome := userInput));
      Transition(AddMessage(stored, GreetingText(userInput), true, now).(step := Phone), None)
    case Phone =>
      var stored := s.(quizData := s.quizData.(telefone := userInput));
      Transition(AddMessage(stored, WebhookPromptText, true, now).(step := Webhook), None)
    case Webhook =>
      var stored := s.(webhookUrl := userInput);
      var t := SendToWebhook(AddMessage(stored, SendingText, true, now), userInput, now);
      Transition(t.state, Some(t.effect))
    case Completed =>
      Transition(s, None)
  }

  /** The rest of `sendToWebhook`, once the `fetch` settles. If it resolved,
      the success timer is scheduled (the effect) and nothing else changes
      yet; if it threw, one error message is posted and the step returns to
      `Webhook`. Either way the loading flag ends down. */
  function FinishSend(s: State, outcome: SendOutcome, now: Instant): (t: Transition<bool>)
    ensures !t.state.isLoading
    ensures t.effect <==> outcome == Resolved
    ensures outcome == Resolved ==> t.state == s.(isLoading := false)
    ensures outcome == Threw ==>
              && AppendsOne(s, t.state)
              && IsBotMessage(Last(t.state.messages), ErrorText, now)
              && t.state.step == Webhook
              && t.state == s.(messages := t.state.messages, step := Webhook, isLoading := false)
  {
    match outcome
    case Resolved =>
      Transition(s.(isLoading := false), true)
    case Threw =>
      Transition(AddMessage(s, ErrorText, true, now).(step := Webhook, isLoading := false), false)
  }

  /** The callback of the 1500 ms timer a successful send schedules: one
      bot message thanking the user by name, and the conversation ends. */
  function OnSendSuccess(s: State, now: Instant): (r: State)
    ensures AppendsOne(s, r)
    ensures IsBotMessage(Last(r.messages), SuccessText(s.quizData.nome), now)
    ensures Contains(Last(r.messages).text, s.quizData.nome)
    ensures r.step == Completed
    ensures r == s.(messages := r.messages, step := Completed)
  {
    AddMessage(s, SuccessText(s.quizData.nome), true, now).(step := Completed)
  }

  /** `resetQuiz`: the transcript is the welcome message alone, the record,
      the URL and the input are cleared and the step is `Name`. The loading
      flag is kept as it was. */
  function ResetQuiz(s: State, now: Instant): (r: State)
    ensures r.messages == [WelcomeMessage(now)] && StartsWithWelcome(r)
    ensures r.step == Name
    ensures r.quizData == QuizData("", "") && r.webhookUrl == "" && r.currentInput == ""
    ensures r.isLoading == s.isLoading
  {
    State([WelcomeMessage(now)], "", Name, QuizData("", ""), "", s.isLoading)
  }

  /** Resetting when no send is outstanding gives back the initial state. */
  lemma ResetRestoresInitial(s: State, now: Instant)
    requires !s.isLoading
    ensures ResetQuiz(s, now) == Initial(now)
  {
  }
}
