/** Whole conversations, event by event. */
module Scenarios {
  import opened Text
  import opened QuizState
  import opened EventLoop

  const Url := "https://n8n.example.com/webhook/lead"

  lemma RunCons(w: World, e: Event, es: seq<Event>)
    requires Enabled(w, e) && Admissible(Apply(w, e), es)
    ensures Admissible(w, [e] + es) && Run(w, [e] + es) == Run(Apply(w, e), es)
  {
    assert ([e] + es)[0] == e && ([e] + es)[1..] == es;
  }

  /** The world without its transcript. */
  datatype View = View(step: Step, quizData: QuizData, currentInput: string, webhookUrl: string,
                       isLoading: bool, timers: seq<Timer>, inFlight: nat, posted: seq<Request>)

  function ViewOf(w: World): View {
    View(w.quiz.step, w.quiz.quizData, w.quiz.currentInput, w.quiz.webhookUrl,
         w.quiz.isLoading, w.timers, w.inFlight, w.posted)
  }

  lemma TypeStep(w: World, text: string)
    requires w.quiz.step != Completed && !w.quiz.isLoading
    ensures Enabled(w, Type(text))
    ensures ViewOf(Apply(w, Type(text))) == ViewOf(w).(currentInput := text)
  {
  }

  lemma SubmitStep(w: World, now: Instant, u: string)
    requires w.quiz.step != Completed && !w.quiz.isLoading
    requires Trim(w.quiz.currentInput) == u && u != []
    ensures Enabled(w, Submit(now))
    ensures ViewOf(Apply(w, Submit(now))) == ViewOf(w).(currentInput := "", timers := w.timers + [BotReply(u)])
  {
  }

  lemma ReplyStep(w: World, now: Instant, u: string)
    requires w.timers != [] && w.timers[0] == BotReply(u)
    ensures Enabled(w, Fire(0, now))
    ensures var r := Apply(w, Fire(0, now));
            && r.timers == w.timers[1..]
            && ViewOf(r).(timers := [], inFlight := 0, posted := []) ==
               ViewOf(w).(timers := [], inFlight := 0, posted := []).(
                 step := HandleBotResponse(w.quiz, u, now).state.step,
                 quizData := HandleBotResponse(w.quiz, u, now).state.quizData,
                 webhookUrl := HandleBotResponse(w.quiz, u, now).state.webhookUrl,
                 isLoading := HandleBotResponse(w.quiz, u, now).state.isLoading)
            && (w.quiz.step == Webhook ==>
                  r.inFlight == w.inFlight + 1 && r.posted == w.posted + [Request(u, DataToSend(w.quiz.quizData, now))])
            && (w.quiz.step != Webhook ==> r.inFlight == w.inFlight && r.posted == w.posted)
  {
    var rest := Remove(w.timers, 0);
    assert rest == w.timers[1..];
  }

  lemma ResolveStep(w: World, now: Instant)
    requires w.inFlight > 0
    ensures Enabled(w, Settle(Resolved, now))
    ensures ViewOf(Apply(w, Settle(Resolved, now))) ==
            ViewOf(w).(isLoading := false, timers := w.timers + [SendSuccess], inFlight := w.inFlight - 1)
  {
  }

  lemma SuccessStep(w: World, now: Instant)
    requires w.timers != [] && w.timers[0] == SendSuccess
    ensures Enabled(w, Fire(0, now))
    ensures var r := Apply(w, Fire(0, now));
            && ViewOf(r) == ViewOf(w).(step := Completed, timers := w.timers[1..])
            && r.quiz.messages != [] && Last(r.quiz.messages).text == SuccessText(w.quiz.quizData.nome)
  {
    assert Remove(w.timers, 0) == w.timers[1..];
  }

  /** One answer: the user types `text`, submits it, and the reply timer runs. */
  function Answer(text: string, now: Instant): seq<Event> {
    [Type(text), Submit(now), Fire(0, now + 1)]
  }

  lemma {:induction false} RunAnswer(w: World, text: string, now: Instant)
    requires w.quiz.step != Completed && !w.quiz.isLoading && w.timers == []
    requires !AllWhitespace(text)
    ensures Admissible(w, Answer(text, now))
    ensures var r := Run(w, Answer(text, now));
            var t := HandleBotResponse(w.quiz.(currentInput := ""), Trim(text), now + 1);
            && ViewOf(r) == ViewOf(w).(step := t.state.step, quizData := t.state.quizData,
                                       currentInput := "", webhookUrl := t.state.webhookUrl,
                                       isLoading := t.state.isLoading,
                                       inFlight := r.inFlight, posted := r.posted)
            && (w.quiz.step == Webhook ==>
                  r.inFlight == w.inFlight + 1
                  && r.posted == w.posted + [Request(Trim(text), DataToSend(w.quiz.quizData, now + 1))])
            && (w.quiz.step != Webhook ==> r.inFlight == w.inFlight && r.posted == w.posted)
            && |r.quiz.messages| == |w.quiz.messages| + 2
            && r.quiz.messages[..|w.quiz.messages|] == w.quiz.messages
            && r.quiz.messages[|w.quiz.messages|] == Message(now, Trim(text), false, now)
            && Last(r.quiz.messages) == Last(t.state.messages) && Last(r.quiz.messages).isBot
  {
    TypeStep(w, text);
    var w1 := Apply(w, Type(text));
    SubmitStep(w1, now, Trim(text));
    var w2 := Apply(w1, Submit(now));
    assert w2.timers == [BotReply(Trim(text))];
    ReplyStep(w2, now + 1, Trim(text));
    var w3 := Apply(w2, Fire(0, now + 1));
    RunCons(w2, Fire(0, now + 1), []);
    RunCons(w1, Submit(now), [Fire(0, now + 1)]);
    RunCons(w, Type(text), [Submit(now), Fire(0, now + 1)]);
  }

  /** The outstanding send resolves and then the success timer runs. */
  function Confirm(now: Instant): seq<Event> {
    [Settle(Resolved, now), Fire(0, now + 1)]
  }

  lemma {:induction false} RunConfirm(w: World, now: Instant)
    requires w.inFlight > 0 && w.timers == []
    ensures Admissible(w, Confirm(now))
    ensures var r := Run(w, Confirm(now));
            && ViewOf(r) == ViewOf(w).(step := Completed, isLoading := false, inFlight := w.inFlight - 1)
            && r.quiz.messages != [] && Last(r.quiz.messages).text == SuccessText(w.quiz.quizData.nome)
  {
    ResolveStep(w, now);
    var w1 := Apply(w, Settle(Resolved, now));
    SuccessStep(w1, now + 1);
    RunCons(w1, Fire(0, now + 1), []);
    RunCons(w, Settle(Resolved, now), [Fire(0, now + 1)]);
  }

  lemma TrimmedInputs()
    ensures Trim(" Ana ") == "Ana"
    ensures Trim("11999998888") == "11999998888"
    ensures Trim(Url) == Url
  {
    assert TrimStart(" Ana ") == "Ana ";
    assert TrimEnd("Ana ") == "Ana";
    TrimOfTrimmed("11999998888");
    TrimOfTrimmed(Url);
  }

  /** The conversation up to the webhook step: the name " Ana " (trimmed on
      submit) and the phone "11999998888". */
  function ToWebhookStep(): seq<Event> {
    Answer(" Ana ", 1) + Answer("11999998888", 3)
  }

  lemma {:induction false} ReachWebhookStep()
    ensures Admissible(Start(0), ToWebhookStep())
    ensures ViewOf(Run(Start(0), ToWebhookStep())) ==
            View(Webhook, QuizData("Ana", "11999998888"), "", "", false, [], 0, [])
  {
    TrimmedInputs();
    var w0 := Start(0);
    RunAnswer(w0, " Ana ", 1);
    var w1 := Run(w0, Answer(" Ana ", 1));
    RunAnswer(w1, "11999998888", 3);
    RunAppend(w0, Answer(" Ana ", 1), Answer("11999998888", 3));
  }

  /** A whole conversation: name, phone, URL, a send that resolves and the
      success timer. It ends in `completed` with exactly one request posted,
      to the typed URL, carrying the trimmed name, the phone and the origin
      tag, and the last message thanks the user by name. */
  lemma {:induction false} HappyPath()
    ensures Admissible(Start(0), ToWebhookStep() + Answer(Url, 5) + Confirm(7))
    ensures var w := Run(Start(0), ToWebhookStep() + Answer(Url, 5) + Confirm(7));
            && ViewOf(w) == View(Completed, QuizData("Ana", "11999998888"), "", Url, false, [], 0,
                                 [Request(Url, Payload("Ana", "11999998888", 6, Origin))])
            && w.quiz.messages != [] && Last(w.quiz.messages).text == SuccessText("Ana")
  {
    TrimmedInputs();
    ReachWebhookStep();
    var w0 := Run(Start(0), ToWebhookStep());
    RunAnswer(w0, Url, 5);
    var w1 := Run(w0, Answer(Url, 5));
    RunConfirm(w1, 7);
    RunAppend(Start(0), ToWebhookStep(), Answer(Url, 5));
    RunAppend(Start(0), ToWebhookStep() + Answer(Url, 5), Confirm(7));
  }

  /** The URL typed and submitted twice before the first reply runs (the
      input is disabled only once a reply has started the send). */
  function SubmitTwice(text: string, now: Instant): seq<Event> {
    [Type(text), Submit(now), Type(text), Submit(now + 1)] + [Fire(0, now + 2), Fire(0, now + 3)]
  }

  lemma {:induction false} RunQueueTwice(w: World, text: string, now: Instant)
    requires w.quiz.step == Webhook && !w.quiz.isLoading && w.timers == []
    requires !AllWhitespace(text)
    ensures Admissible(w, [Type(text), Submit(now), Type(text), Submit(now + 1)])
    ensures var r := Run(w, [Type(text), Submit(now), Type(text), Submit(now + 1)]);
            ViewOf(r) == ViewOf(w).(currentInput := "", timers := [BotReply(Trim(text)), BotReply(Trim(text))])
  {
    var u := Trim(text);
    TypeStep(w, text);
    var w1 := Apply(w, Type(text));
    SubmitStep(w1, now, u);
    var w2 := Apply(w1, Submit(now));
    TypeStep(w2, text);
    var w3 := Apply(w2, Type(text));
    SubmitStep(w3, now + 1, u);
    RunCons(w3, Submit(now + 1), []);
    RunCons(w2, Type(text), [Submit(now + 1)]);
    RunCons(w1, Submit(now), [Type(text), Submit(now + 1)]);
    RunCons(w, Type(text), [Submit(now), Type(text), Submit(now + 1)]);
  }

  lemma {:induction false} RunTwoReplies(w: World, u: string, now: Instant)
    requires w.quiz.step == Webhook && w.timers == [BotReply(u), BotReply(u)]
    ensures Admissible(w, [Fire(0, now), Fire(0, now + 1)])
    ensures var r := Run(w, [Fire(0, now), Fire(0, now + 1)]);
            && r.inFlight == w.inFlight + 2
            && r.posted == w.posted + [Request(u, DataToSend(w.quiz.quizData, now)),
                                       Request(u, DataToSend(w.quiz.quizData, now + 1))]
  {
    ReplyStep(w, now, u);
    var w1 := Apply(w, Fire(0, now));
    assert w1.timers == [BotReply(u)];
    ReplyStep(w1, now + 1, u);
    RunCons(w1, Fire(0, now + 1), []);
    RunCons(w, Fire(0, now), [Fire(0, now + 1)]);
  }

  lemma {:induction false} RunSubmitTwice(w: World, text: string, now: Instant)
    requires w.quiz.step == Webhook && !w.quiz.isLoading && w.timers == []
    requires !AllWhitespace(text)
    ensures Admissible(w, SubmitTwice(text, now))
    ensures var r := Run(w, SubmitTwice(text, now));
            && r.inFlight == w.inFlight + 2
            && r.posted == w.posted + [Request(Trim(text), DataToSend(w.quiz.quizData, now + 2)),
                                       Request(Trim(text), DataToSend(w.quiz.quizData, now + 3))]
  {
    var queue := [Type(text), Submit(now), Type(text), Submit(now + 1)];
    RunQueueTwice(w, text, now);
    RunTwoReplies(Run(w, queue), Trim(text), now + 2);
    RunAppend(w, queue, [Fire(0, now + 2), Fire(0, now + 3)]);
  }

  /** One conversation can have two posts of the same lead outstanding at once. */
  lemma {:induction false} TwoSendsInFlight()
    ensures Admissible(Start(0), ToWebhookStep() + SubmitTwice(Url, 5))
    ensures var w := Run(Start(0), ToWebhookStep() + SubmitTwice(Url, 5));
            && w.inFlight == 2
            && w.posted == [Request(Url, Payload("Ana", "11999998888", 7, Origin)),
                            Request(Url, Payload("Ana", "11999998888", 8, Origin))]
  {
    TrimmedInputs();
    ReachWebhookStep();
    var w0 := Run(Start(0), ToWebhookStep());
    RunSubmitTwice(w0, Url, 5);
    RunAppend(Start(0), ToWebhookStep(), SubmitTwice(Url, 5));
  }
}
