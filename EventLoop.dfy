/** The component inside the browser: the callbacks it left with
    `setTimeout`, the `fetch` calls still outstanding, and the requests it
    has posted. An event is something the browser delivers; it is enabled
    only when the rendered page or the browser can produce it. */
module EventLoop {
  import opened Text
  import opened QuizState

  /** A callback handed to `setTimeout` that has not run yet: the 1000 ms
      reply after a submit, or the 1500 ms success notice after a send. */
  datatype Timer = BotReply(userInput: string) | SendSuccess

  datatype World = World(quiz: State, timers: seq<Timer>, inFlight: nat, posted: seq<Request>)

  datatype Event =
    | Type(text: string)                         // the input field changes
    | Submit(now: Instant)                       // the form is submitted
    | Fire(index: nat, now: Instant)             // a pending timer runs
    | Settle(outcome: SendOutcome, now: Instant) // an outstanding fetch ends
    | Reset(now: Instant)                        // the "new quiz" button

  /** The page's first render: the component's initial state, with no
      timer pending, no fetch outstanding and nothing posted. */
  function Start(now: Instant): (w: World)
    ensures Inv(w) && w.quiz.step == Name
    ensures w.timers == [] && w.inFlight == 0 && w.posted == []
  {
    World(Initial(now), [], 0, [])
  }

  /** The form (input and send button) is rendered only before the
      conversation is completed, the input is disabled while loading, the
      send button also while the trimmed input is empty, and the reset button
      is rendered only once completed. Timers and fetches end in any order. */
  predicate Enabled(w: World, e: Event) {
    match e
    case Type(_) => w.quiz.step != Completed && !w.quiz.isLoading
    case Submit(_) => w.quiz.step != Completed && !w.quiz.isLoading && Trim(w.quiz.currentInput) != []
    case Fire(i, _) => i < |w.timers|
    case Settle(_, _) => w.inFlight > 0
    case Reset(_) => w.quiz.step == Completed
  }

  function Remove(ts: seq<Timer>, i: nat): (r: seq<Timer>)
    requires i < |ts|
    ensures |r| == |ts| - 1
    ensures forall k :: 0 <= k < |r| ==> r[k] == ts[if k < i then k else k + 1]
  {
    ts[..i] + ts[i + 1..]
  }

  /** The effect of one event. Each handler's effect on the browser is
      carried out: a scheduled timer joins `timers`, a started fetch counts in
      `inFlight` and its request joins `posted`. */
  function Apply(w: World, e: Event): (r: World)
    requires Enabled(w, e)
    ensures !e.Reset? ==> w.quiz.messages <= r.quiz.messages
    ensures w.posted <= r.posted && |r.posted| <= |w.posted| + 1
  {
    match e
    case Type(text) =>
      w.(quiz := OnInputChange(w.quiz, text))
    case Submit(now) =>
      var t := HandleSubmit(w.quiz, now);
      var scheduled := if t.effect.Some? then [BotReply(t.effect.value)] else [];
      w.(quiz := t.state, timers := w.timers + scheduled)
    case Fire(i, now) =>
      var rest := Remove(w.timers, i);
      (match w.timers[i]
       case BotReply(userInput) =>
         var t := HandleBotResponse(w.quiz, userInput, now);
         if t.effect.Some? then
           w.(quiz := t.state, timers := rest, inFlight := w.inFlight + 1, posted := w.posted + [t.effect.value])
         else
           w.(quiz := t.state, timers := rest)
       case SendSuccess =>
         w.(quiz := OnSendSuccess(w.quiz, now), timers := rest))
    case Settle(outcome, now) =>
      var t := FinishSend(w.quiz, outcome, now);
      var scheduled := if t.effect then [SendSuccess] else [];
      w.(quiz := t.state, timers := w.timers + scheduled, inFlight := w.inFlight - 1)
    case Reset(now) =>
      w.(quiz := ResetQuiz(w.quiz, now))
  }

  /** Every event of `es` is enabled when it comes. */
  predicate Admissible(w: World, es: seq<Event>)
    decreases |es|
  {
    es == [] || (Enabled(w, es[0]) && Admissible(Apply(w, es[0]), es[1..]))
  }

  function Run(w: World, es: seq<Event>): World
    requires Admissible(w, es)
    decreases |es|
  {
    if es == [] then w else Run(Apply(w, es[0]), es[1..])
  }

  lemma {:induction false} RunAppend(w: World, a: seq<Event>, b: seq<Event>)
    requires Admissible(w, a)
    ensures Admissible(w, a + b) <==> Admissible(Run(w, a), b)
    ensures Admissible(w, a + b) ==> Run(w, a + b) == Run(Run(w, a), b)
    decreases |a|
  {
    if a != [] {
      assert (a + b)[0] == a[0];
      assert (a + b)[1..] == a[1..] + b;
      RunAppend(Apply(w, a[0]), a[1..], b);
    } else {
      assert a + b == b;
    }
  }

  /** Without a reset, the transcript only grows at its end: every message
      once shown stays where it is. */
  lemma {:induction false} TranscriptOnlyGrows(w: World, es: seq<Event>)
    requires Admissible(w, es)
    requires forall i :: 0 <= i < |es| ==> !es[i].Reset?
    ensures w.quiz.messages <= Run(w, es).quiz.messages
    decreases |es|
  {
    if es != [] {
      TranscriptOnlyGrows(Apply(w, es[0]), es[1..]);
    }
  }

  /** Requests once posted stay posted, in order. */
  lemma {:induction false} PostedOnlyGrows(w: World, es: seq<Event>)
    requires Admissible(w, es)
    ensures w.posted <= Run(w, es).posted
    decreases |es|
  {
    if es != [] {
      PostedOnlyGrows(Apply(w, es[0]), es[1..]);
    }
  }

  /** A reply timer holds a non-empty trimmed text. */
  predicate ReplyReady(t: Timer) {
    t.BotReply? ==> t.userInput != [] && IsTrimmed(t.userInput)
  }

  /** What holds in every world the browser can reach. */
  predicate Inv(w: World) {
    && StartsWithWelcome(w.quiz)
    && (w.quiz.isLoading ==> w.inFlight > 0)
    && (forall k :: 0 <= k < |w.timers| ==> ReplyReady(w.timers[k]))
    && (w.quiz.step == Name ==> w.quiz.quizData == QuizData("", ""))
    && (w.quiz.step == Phone ==>
          && w.quiz.quizData.telefone == ""
          && w.quiz.quizData.nome != [] && IsTrimmed(w.quiz.quizData.nome))
    && (forall k :: 0 <= k < |w.posted| ==> w.posted[k].body.origem == Origin)
  }

  /** Every enabled event keeps the invariant. */
  lemma Preserved(w: World, e: Event)
    requires Inv(w) && Enabled(w, e)
    ensures Inv(Apply(w, e))
  {
    match e
    case Type(_) =>
    case Submit(now) => SubmitPreserves(w, now);
    case Fire(i, now) =>
      if w.timers[i].BotReply? {
        ReplyPreserves(w, i, now);
      } else {
        SuccessPreserves(w, i, now);
      }
    case Settle(outcome, now) => SettlePreserves(w, outcome, now);
    case Reset(_) =>
  }

  lemma SubmitPreserves(w: World, now: Instant)
    requires Inv(w) && Enabled(w, Submit(now))
    ensures Inv(Apply(w, Submit(now)))
  {
    var r := Apply(w, Submit(now));
    assert w.quiz.messages <= r.quiz.messages;
    assert forall k :: 0 <= k < |r.timers| ==> ReplyReady(r.timers[k]) by {
      forall k | 0 <= k < |r.timers| ensures ReplyReady(r.timers[k]) {
        if k < |w.timers| {
          assert r.timers[k] == w.timers[k];
        }
      }
    }
  }

  lemma ReplyPreserves(w: World, i: nat, now: Instant)
    requires Inv(w) && i < |w.timers| && w.timers[i].BotReply?
    ensures Inv(Apply(w, Fire(i, now)))
  {
    var r := Apply(w, Fire(i, now));
    assert ReplyReady(w.timers[i]);
    assert w.quiz.messages <= r.quiz.messages;
    assert forall k :: 0 <= k < |r.timers| ==> ReplyReady(r.timers[k]) by {
      forall k | 0 <= k < |r.timers| ensures ReplyReady(r.timers[k]) {
        assert r.timers[k] == w.timers[if k < i then k else k + 1];
      }
    }
  }

  lemma SuccessPreserves(w: World, i: nat, now: Instant)
    requires Inv(w) && i < |w.timers| && w.timers[i].SendSuccess?
    ensures Inv(Apply(w, Fire(i, now)))
  {
    var r := Apply(w, Fire(i, now));
    assert w.quiz.messages <= r.quiz.messages;
    assert forall k :: 0 <= k < |r.timers| ==> ReplyReady(r.timers[k]) by {
      forall k | 0 <= k < |r.timers| ensures ReplyReady(r.timers[k]) {
        assert r.timers[k] == w.timers[if k < i then k else k + 1];
      }
    }
  }

  lemma SettlePreserves(w: World, outcome: SendOutcome, now: Instant)
    requires Inv(w) && Enabled(w, Settle(outcome, now))
    ensures Inv(Apply(w, Settle(outcome, now)))
  {
    var r := Apply(w, Settle(outcome, now));
    assert w.quiz.messages <= r.quiz.messages;
    assert forall k :: 0 <= k < |r.timers| ==> ReplyReady(r.timers[k]) by {
      forall k | 0 <= k < |r.timers| ensures ReplyReady(r.timers[k]) {
        if k < |w.timers| {
          assert r.timers[k] == w.timers[k];
        }
      }
    }
  }

  lemma {:induction false} InvAlongRun(w: World, es: seq<Event>)
    requires Inv(w) && Admissible(w, es)
    ensures Inv(Run(w, es))
    decreases |es|
  {
    if es != [] {
      Preserved(w, es[0]);
      InvAlongRun(Apply(w, es[0]), es[1..]);
    }
  }

  /** From the page's first render, whatever the order of events: the
      transcript opens with the welcome message; loading implies a fetch is
      outstanding; every pending reply holds a non-empty trimmed text; in
      step `name` nothing is recorded yet; in step `phone` the name is a
      non-empty trimmed text and no phone is recorded; every posted body
      carries the fixed origin tag. */
  lemma ReachableFromStart(now: Instant, es: seq<Event>)
    requires Admissible(Start(now), es)
    ensures Inv(Run(Start(now), es))
  {
    InvAlongRun(Start(now), es);
  }
}
