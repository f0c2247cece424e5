/**
 * The chat half of the TradeBot component (chat/src/App.js) as a state
 * machine over values. Each `fetch` to /ask is split into the step that
 * issues it and the step that settles it with an outcome; the pending
 * promises are counted in the state so that a settle step can only follow
 * the step that issued its request.
 */
module Conversation {
  import opened JsValues

  datatype Sender = User | Bot

  /** A bubble's text: a string, or `undefined` when the reply had no answer. */
  datatype Text = Str(s: string) | Undefined

  datatype Message = Message(sender: Sender, text: Text)

  /**
   * How a request to /ask settles: a parsed JSON body with its optional
   * `answer` and `error` fields, or a failure to fetch or to parse (a
   * `null` body fails the same way, since reading a field of it throws).
   */
  datatype AskOutcome = Payload(answer: Option<string>, error: Option<string>) | TransportFailure

  const ErrorPrefix: string := "Error: "
  const ConnectionFailureText: string := "Failed to connect to the backend."

  /**
   * The component's chat state: the `input`, `messages` and `loading` state
   * variables, the number of question requests not yet settled and whether
   * the greeting request is still pending.
   */
  datatype ChatState = ChatState(
    input: string,
    messages: seq<Message>,
    loading: bool,
    asksInFlight: nat,
    greetingInFlight: bool)

  /** The state right after mounting: empty input and log, greeting issued. */
  const Mounted: ChatState := ChatState("", [], false, 0, true)

  /** The value shown for an optional field: the string or `undefined`. */
  function Shown(v: Option<string>): Text {
    if v.Some? then Str(v.value) else Undefined
  }

  /** The one bot message a settled question adds: error first, then answer. */
  function BotReply(o: AskOutcome): (m: Message)
    ensures m.sender == Bot
  {
    match o
    case TransportFailure => Message(Bot, Str(ConnectionFailureText))
    case Payload(answer, error) =>
      if Truthy(error) then Message(Bot, Str(ErrorPrefix + error.value))
      else Message(Bot, Shown(answer))
  }

  /** The textarea's onChange handler; the textarea is disabled while loading. */
  function TypeInput(s: ChatState, text: string): ChatState {
    s.(input := text)
  }

  /**
   * The synchronous part of `sendMessage`: trim the input, give up if that
   * leaves nothing, otherwise log the question, clear the input, raise
   * `loading` and issue the request. There is no check of `loading` here.
   */
  function Submit(s: ChatState): (r: ChatState)
    ensures r.greetingInFlight == s.greetingInFlight
    ensures r == s || (r.input == "" && r.loading && r.asksInFlight == s.asksInFlight + 1 &&
                       |r.messages| == |s.messages| + 1 && r.messages[..|s.messages|] == s.messages &&
                       r.messages[|s.messages|].sender == User)
  {
    var question := Trim(s.input);
    if question == "" then s
    else s.(messages := s.messages + [Message(User, Str(question))],
            input := "",
            loading := true,
            asksInFlight := s.asksInFlight + 1)
  }

  /** The part of `sendMessage` after its request settles. */
  function SettleAsk(s: ChatState, o: AskOutcome): (r: ChatState)
    requires s.asksInFlight > 0
    ensures |r.messages| == |s.messages| + 1 && r.messages[..|s.messages|] == s.messages
    ensures r.messages[|s.messages|].sender == Bot
    ensures !r.loading && r.input == s.input && r.asksInFlight == s.asksInFlight - 1
    ensures r.greetingInFlight == s.greetingInFlight
  {
    s.(messages := s.messages + [BotReply(o)], loading := false, asksInFlight := s.asksInFlight - 1)
  }

  /**
   * The greeting effect after its request settles: any parsed body replaces
   * the whole log by one bot message holding its `answer` (no error check);
   * a failure rejects a promise nobody catches, so the log stays as it was.
   */
  function SettleGreeting(s: ChatState, o: AskOutcome): (r: ChatState)
    requires s.greetingInFlight
    ensures o.Payload? ==> |r.messages| == 1 && r.messages[0].sender == Bot
    ensures o.TransportFailure? ==> r.messages == s.messages
    ensures r.input == s.input && r.loading == s.loading && r.asksInFlight == s.asksInFlight
    ensures !r.greetingInFlight
  {
    match o
    case TransportFailure => s.(greetingInFlight := false)
    case Payload(answer, _) => s.(messages := [Message(Bot, Shown(answer))], greetingInFlight := false)
  }

  /** `handleKeyDown`'s test: Enter without Shift sends (and prevents the newline). */
  predicate KeyTriggersSubmit(key: string, shiftKey: bool) {
    key == "Enter" && !shiftKey
  }

  /** `handleKeyDown`: any other key leaves the state alone. */
  function KeyDown(s: ChatState, key: string, shiftKey: bool): (r: ChatState)
    ensures !KeyTriggersSubmit(key, shiftKey) ==> r == s
    ensures r.greetingInFlight == s.greetingInFlight
  {
    if KeyTriggersSubmit(key, shiftKey) then Submit(s) else s
  }

  /** The textarea is enabled unless a question is loading. */
  predicate InputEnabled(s: ChatState)
    ensures OneAskAtATime(s) ==> (InputEnabled(s) <==> s.asksInFlight == 0)
  {
    !s.loading
  }

  /** The send button: `disabled={loading || !input.trim()}`. */
  predicate SendEnabled(s: ChatState)
    ensures SendEnabled(s) ==> InputEnabled(s) && s.input != ""
  {
    !(s.loading || Trim(s.input) == "")
  }

  /** The empty-chat placeholder: `messages.length === 0 && !loading`. */
  predicate ShowsPlaceholder(s: ChatState)
    ensures ShowsPlaceholder(s) ==> InputEnabled(s)
    ensures |s.messages| > 0 ==> !ShowsPlaceholder(s)
  {
    |s.messages| == 0 && !s.loading
  }

  // ----- properties of single steps -----

  /** A blank input makes `Submit` change nothing and issue no request. */
  lemma SubmitBlankIsNoop(s: ChatState)
    requires IsBlank(s.input)
    ensures Submit(s) == s
  {
    TrimEmptyIffBlank(s.input);
  }

  /**
   * A non-blank input makes `Submit` append exactly one user message holding
   * the trimmed question, keep every earlier message, clear the input, raise
   * `loading` and issue one request.
   */
  lemma SubmitAppendsQuestion(s: ChatState)
    requires !IsBlank(s.input)
    ensures var r := Submit(s);
      |r.messages| == |s.messages| + 1 &&
      r.messages[..|s.messages|] == s.messages &&
      r.messages[|s.messages|] == Message(User, Str(Trim(s.input))) &&
      r.input == "" && r.loading && r.asksInFlight == s.asksInFlight + 1 &&
      r.greetingInFlight == s.greetingInFlight
  {
    TrimEmptyIffBlank(s.input);
  }

  /**
   * `sendMessage` has no guard of its own: with a question already loading,
   * a non-blank input still logs a second question and issues a second
   * request. Only the disabled controls keep this from happening.
   */
  lemma SubmitHasNoLoadingGuard(s: ChatState)
    requires s.loading && !IsBlank(s.input)
    ensures Submit(s).asksInFlight == s.asksInFlight + 1
    ensures Submit(s).messages == s.messages + [Message(User, Str(Trim(s.input)))]
  {
    TrimEmptyIffBlank(s.input);
  }

  /**
   * Settling a question appends exactly one bot message and always clears
   * `loading`. The message is "Error: " + error when `error` is a non-empty
   * string, whatever `answer` holds; the connection failure text on a
   * transport failure; and otherwise the `answer`, `undefined` if absent.
   */
  lemma SettleAskAppendsReply(s: ChatState, o: AskOutcome)
    requires s.asksInFlight > 0
    ensures var r := SettleAsk(s, o);
      r.messages == s.messages + [BotReply(o)] && !r.loading &&
      r.asksInFlight == s.asksInFlight - 1 && r.input == s.input
    ensures BotReply(o).sender == Bot
    ensures o.TransportFailure? ==> BotReply(o).text == Str(ConnectionFailureText)
    ensures o.Payload? && Truthy(o.error) ==> BotReply(o).text == Str(ErrorPrefix + o.error.value)
    ensures o.Payload? && !Truthy(o.error) ==> BotReply(o).text == Shown(o.answer)
  {
  }

  /** The error branch is taken before the answer is looked at. */
  lemma ErrorHidesAnswer(answer: Option<string>, error: Option<string>)
    requires Truthy(error)
    ensures BotReply(Payload(answer, error)) == BotReply(Payload(None, error))
    ensures BotReply(Payload(answer, error)).text != Undefined
  {
  }

  /** A reply bubble shows `undefined` exactly when a body has neither a truthy error nor an answer. */
  lemma ReplyUndefinedIff(o: AskOutcome)
    ensures BotReply(o).text == Undefined <==> o.Payload? && !Truthy(o.error) && o.answer.None?
  {
  }

  /**
   * A parsed greeting body replaces the log by exactly one bot message with
   * its answer, discarding what was there; a failed greeting leaves the log.
   */
  lemma SettleGreetingReplacesLog(s: ChatState, o: AskOutcome)
    requires s.greetingInFlight
    ensures o.Payload? ==> SettleGreeting(s, o).messages == [Message(Bot, Shown(o.answer))]
    ensures o.TransportFailure? ==> SettleGreeting(s, o).messages == s.messages
    ensures SettleGreeting(s, o).loading == s.loading && !SettleGreeting(s, o).greetingInFlight
  {
  }

  /** Enter without Shift submits; any other key, or Shift+Enter, changes nothing. */
  lemma KeyDownSubmitsIff(s: ChatState, key: string, shiftKey: bool)
    ensures key == "Enter" && !shiftKey ==> KeyDown(s, key, shiftKey) == Submit(s)
    ensures key != "Enter" || shiftKey ==> KeyDown(s, key, shiftKey) == s
  {
  }

  /** The send button is enabled exactly when nothing is loading and the input is not blank. */
  lemma SendEnabledIff(s: ChatState)
    ensures SendEnabled(s) <==> !s.loading && !IsBlank(s.input)
  {
    TrimEmptyIffBlank(s.input);
  }

  /** Pressing an enabled send button always logs the question and issues a request. */
  lemma EnabledSendBegins(s: ChatState)
    requires SendEnabled(s)
    ensures Submit(s).loading && Submit(s).asksInFlight == s.asksInFlight + 1
    ensures Submit(s).messages == s.messages + [Message(User, Str(Trim(s.input)))]
  {
  }

  /**
   * Once a question has been logged the placeholder never shows again,
   * whatever events follow, including after `loading` has dropped.
   */
  lemma PlaceholderGoneAfterSubmit(s: ChatState, es: seq<UiEvent>)
    requires !IsBlank(s.input)
    ensures !ShowsPlaceholder(Run(Submit(s), es))
  {
    SubmitAppendsQuestion(s);
    LogNeverEmpties(Submit(s), es);
  }

  // ----- runs of UI events under the disabled-control gating -----

  /** The events the component reacts to. */
  datatype UiEvent =
    | Typed(text: string)
    | KeyPressed(key: string, shiftKey: bool)
    | SendClicked
    | AskSettled(outcome: AskOutcome)
    | GreetingSettled(outcome: AskOutcome)

  /**
   * Whether the event can reach the component in state `s`: a disabled
   * textarea gets no typing or keys, a disabled button no clicks, and a
   * request settles only while it is pending.
   */
  predicate CanOccur(s: ChatState, e: UiEvent) {
    match e
    case Typed(_) => InputEnabled(s)
    case KeyPressed(_, _) => InputEnabled(s)
    case SendClicked => SendEnabled(s)
    case AskSettled(_) => s.asksInFlight > 0
    case GreetingSettled(_) => s.greetingInFlight
  }

  function Step(s: ChatState, e: UiEvent): ChatState
    requires CanOccur(s, e)
  {
    match e
    case Typed(text) => TypeInput(s, text)
    case KeyPressed(key, shiftKey) => KeyDown(s, key, shiftKey)
    case SendClicked => Submit(s)
    case AskSettled(o) => SettleAsk(s, o)
    case GreetingSettled(o) => SettleGreeting(s, o)
  }

  /** Feeds events in order; an event that cannot occur in the current state is dropped. */
  function Run(s: ChatState, es: seq<UiEvent>): ChatState
    decreases |es|
  {
    if es == [] then s
    else Run(if CanOccur(s, es[0]) then Step(s, es[0]) else s, es[1..])
  }

  /**
   * At most one question is outstanding, and `loading` is raised exactly
   * while it is.
   */
  predicate OneAskAtATime(s: ChatState) {
    s.asksInFlight <= 1 && (s.loading <==> s.asksInFlight == 1)
  }

  lemma StepKeepsOneAskAtATime(s: ChatState, e: UiEvent)
    requires OneAskAtATime(s) && CanOccur(s, e)
    ensures OneAskAtATime(Step(s, e))
  {
  }

  /**
   * Under the gating of the disabled controls, every run from mounting keeps
   * at most one question outstanding with `loading` raised exactly for it;
   * so every settled question leaves `loading` false.
   */
  lemma {:induction false} RunKeepsOneAskAtATime(s: ChatState, es: seq<UiEvent>)
    requires OneAskAtATime(s)
    ensures OneAskAtATime(Run(s, es))
    decreases |es|
  {
    if es != [] {
      var next := if CanOccur(s, es[0]) then Step(s, es[0]) else s;
      if CanOccur(s, es[0]) { StepKeepsOneAskAtATime(s, es[0]); }
      RunKeepsOneAskAtATime(next, es[1..]);
    }
  }

  lemma MountedRunsKeepOneAskAtATime(es: seq<UiEvent>)
    ensures OneAskAtATime(Run(Mounted, es))
  {
    RunKeepsOneAskAtATime(Mounted, es);
  }

  /** The greeting settles at most once: once it has, no run makes it pending again. */
  lemma {:induction false} GreetingSettlesOnce(s: ChatState, es: seq<UiEvent>)
    requires !s.greetingInFlight
    ensures !Run(s, es).greetingInFlight
    decreases |es|
  {
    if es != [] {
      var next := if CanOccur(s, es[0]) then Step(s, es[0]) else s;
      GreetingSettlesOnce(next, es[1..]);
    }
  }

  /**
   * No event empties a log that holds a message (the greeting replaces it by
   * one message, everything else appends or keeps it), so once the log is
   * non-empty the empty-chat placeholder never shows again.
   */
  lemma {:induction false} LogNeverEmpties(s: ChatState, es: seq<UiEvent>)
    requires |s.messages| > 0
    ensures |Run(s, es).messages| > 0 && !ShowsPlaceholder(Run(s, es))
    decreases |es|
  {
    if es != [] {
      var next := if CanOccur(s, es[0]) then Step(s, es[0]) else s;
      LogNeverEmpties(next, es[1..]);
    }
  }

  /** Feeding two batches of events is feeding them in one run. */
  lemma {:induction false} RunConcat(s: ChatState, a: seq<UiEvent>, b: seq<UiEvent>)
    ensures Run(s, a + b) == Run(Run(s, a), b)
    decreases |a|
  {
    if a == [] {
      assert a + b == b;
    } else {
      assert (a + b)[0] == a[0];
      assert (a + b)[1..] == a[1..] + b;
      var next := if CanOccur(s, a[0]) then Step(s, a[0]) else s;
      RunConcat(next, a[1..], b);
    }
  }

  /**
   * The greeting is not awaited before input is accepted: a question typed
   * and sent before the greeting arrives is wiped by it, and its reply then
   * follows the greeting directly, so the log holds two bot messages in a row.
   */
  lemma GreetingRaceDropsQuestion(question: string, greeting: string, answer: string)
    requires !IsBlank(question)
    ensures var s := Run(Mounted, [Typed(question), SendClicked,
                                   GreetingSettled(Payload(Some(greeting), None)),
                                   AskSettled(Payload(Some(answer), None))]);
      s.messages == [Message(Bot, Str(greeting)), Message(Bot, Str(answer))]
  {
    var greet, reply := GreetingSettled(Payload(Some(greeting), None)), AskSettled(Payload(Some(answer), None));
    var es := [Typed(question), SendClicked, greet, reply];
    var s1 := TypeInput(Mounted, question);
    SendEnabledIff(s1);
    SubmitAppendsQuestion(s1);
    var s2 := Submit(s1);
    var s3 := SettleGreeting(s2, greet.outcome);
    var s4 := SettleAsk(s3, reply.outcome);
    assert es[1..] == [SendClicked, greet, reply];
    assert es[1..][1..] == [greet, reply];
    assert es[1..][1..][1..] == [reply];
    calc {
      Run(Mounted, es);
      Run(s1, [SendClicked, greet, reply]);
      Run(s2, [greet, reply]);
      Run(s3, [reply]);
      Run(s4, []);
    }
  }

  // ----- complete question/answer cycles -----

  /** One question typed, sent, and settled with the given outcome. */
  datatype Turn = Turn(question: string, outcome: AskOutcome)

  /** The question is not all whitespace, so sending it issues a request. */
  predicate Askable(t: Turn) {
    !IsBlank(t.question)
  }

  /** The turn's question typed, sent and settled, step after step. */
  function Cycle(s: ChatState, t: Turn): ChatState
    requires Askable(t)
  {
    TrimEmptyIffBlank(t.question);
    SettleAsk(Submit(TypeInput(s, t.question)), t.outcome)
  }

  /** The turns completed one after the other. */
  function Cycles(s: ChatState, ts: seq<Turn>): ChatState
    requires forall k :: 0 <= k < |ts| ==> Askable(ts[k])
    decreases |ts|
  {
    if ts == [] then s else Cycles(Cycle(s, ts[0]), ts[1..])
  }

  /** The UI events of one turn: the question typed, the button clicked, the request settled. */
  function TurnEvents(t: Turn): seq<UiEvent> {
    [Typed(t.question), SendClicked, AskSettled(t.outcome)]
  }

  /** The UI events of the turns, in order. */
  function TurnsEvents(ts: seq<Turn>): seq<UiEvent>
    decreases |ts|
  {
    if ts == [] then [] else TurnEvents(ts[0]) + TurnsEvents(ts[1..])
  }

  /** What the turns add to the log: each question's user message, then its reply. */
  function Transcript(ts: seq<Turn>): seq<Message>
    decreases |ts|
  {
    if ts == [] then []
    else [Message(User, Str(Trim(ts[0].question))), BotReply(ts[0].outcome)] + Transcript(ts[1..])
  }

  /** Senders alternate, starting with `first` at index 0. */
  predicate AlternatesFrom(log: seq<Message>, first: Sender) {
    forall k :: 0 <= k < |log| ==>
      log[k].sender == (if k % 2 == 0 then first else if first == User then Bot else User)
  }

  lemma {:induction false} TranscriptShape(ts: seq<Turn>)
    ensures |Transcript(ts)| == 2 * |ts|
    ensures AlternatesFrom(Transcript(ts), User)
    decreases |ts|
  {
    if ts != [] {
      TranscriptShape(ts[1..]);
      var rest := Transcript(ts[1..]);
      var t := Transcript(ts);
      forall k | 2 <= k < |t|
        ensures t[k].sender == (if k % 2 == 0 then User else Bot)
      {
        assert t[k] == rest[k - 2];
      }
    }
  }

  /**
   * Each completed cycle appends exactly its question and its reply after
   * the earlier messages, and leaves nothing loading and no request pending
   * beyond those pending before.
   */
  lemma CycleAppendsTurn(s: ChatState, t: Turn)
    requires Askable(t)
    ensures Cycle(s, t).messages == s.messages + [Message(User, Str(Trim(t.question))), BotReply(t.outcome)]
    ensures !Cycle(s, t).loading
    ensures Cycle(s, t).asksInFlight == s.asksInFlight
    ensures Cycle(s, t).greetingInFlight == s.greetingInFlight
  {
    SubmitAppendsQuestion(TypeInput(s, t.question));
  }

  lemma {:induction false} CyclesAppendTranscript(s: ChatState, ts: seq<Turn>)
    requires forall k :: 0 <= k < |ts| ==> Askable(ts[k])
    ensures Cycles(s, ts).messages == s.messages + Transcript(ts)
    ensures ts != [] ==> !Cycles(s, ts).loading
    ensures Cycles(s, ts).asksInFlight == s.asksInFlight
    ensures Cycles(s, ts).greetingInFlight == s.greetingInFlight
    decreases |ts|
  {
    if ts != [] {
      var mid := Cycle(s, ts[0]);
      CycleAppendsTurn(s, ts[0]);
      CyclesAppendTranscript(mid, ts[1..]);
      var pair := [Message(User, Str(Trim(ts[0].question))), BotReply(ts[0].outcome)];
      assert Cycles(s, ts) == Cycles(mid, ts[1..]);
      assert Transcript(ts) == pair + Transcript(ts[1..]);
      assert (s.messages + pair) + Transcript(ts[1..]) == s.messages + (pair + Transcript(ts[1..]));
    }
  }

  /**
   * While nothing is loading, the controls let every event of a turn
   * through, so running them is the turn's cycle.
   */
  lemma RunTurnIsCycle(s: ChatState, t: Turn)
    requires Askable(t) && !s.loading
    ensures Run(s, TurnEvents(t)) == Cycle(s, t)
  {
    var es := TurnEvents(t);
    var s1 := TypeInput(s, t.question);
    SendEnabledIff(s1);
    SubmitAppendsQuestion(s1);
    var s2 := Submit(s1);
    var s3 := SettleAsk(s2, t.outcome);
    assert es[1..] == [SendClicked, AskSettled(t.outcome)];
    assert es[1..][1..] == [AskSettled(t.outcome)];
    calc {
      Run(s, es);
      Run(s1, es[1..]);
      Run(s2, es[1..][1..]);
      Run(s3, []);
    }
  }

  /** Every cycle leaves nothing loading, so the events of N turns run as N cycles. */
  lemma {:induction false} RunTurnsIsCycles(s: ChatState, ts: seq<Turn>)
    requires !s.loading
    requires forall k :: 0 <= k < |ts| ==> Askable(ts[k])
    ensures Run(s, TurnsEvents(ts)) == Cycles(s, ts)
    decreases |ts|
  {
    if ts != [] {
      var mid := Cycle(s, ts[0]);
      RunConcat(s, TurnEvents(ts[0]), TurnsEvents(ts[1..]));
      RunTurnIsCycle(s, ts[0]);
      CycleAppendsTurn(s, ts[0]);
      RunTurnsIsCycles(mid, ts[1..]);
    }
  }

  /** A bot-first log of odd length followed by a user-first one alternates throughout. */
  lemma AlternationExtends(a: seq<Message>, t: seq<Message>)
    requires AlternatesFrom(a, Bot) && |a| % 2 == 1
    requires AlternatesFrom(t, User)
    ensures AlternatesFrom(a + t, Bot)
  {
  }

  /**
   * After the greeting, N completed cycles give a log of 1 + 2N messages:
   * the greeting, then user and bot messages alternating.
   */
  lemma GreetingThenCycles(s: ChatState, ts: seq<Turn>)
    requires |s.messages| == 1 && s.messages[0].sender == Bot && !s.loading
    requires forall k :: 0 <= k < |ts| ==> Askable(ts[k])
    ensures Run(s, TurnsEvents(ts)) == Cycles(s, ts)
    ensures |Cycles(s, ts).messages| == 1 + 2 * |ts|
    ensures AlternatesFrom(Cycles(s, ts).messages, Bot)
    ensures Cycles(s, ts).messages[0] == s.messages[0]
  {
    RunTurnsIsCycles(s, ts);
    CyclesAppendTranscript(s, ts);
    TranscriptShape(ts);
    AlternationExtends(s.messages, Transcript(ts));
  }

  /**
   * From mounting, a greeting body followed by the events of N turns leaves
   * the log holding the greeting and then the transcript of the turns:
   * 1 + 2N messages, alternating bot and user.
   */
  lemma MountedGreetingThenTurns(answer: Option<string>, error: Option<string>, ts: seq<Turn>)
    requires forall k :: 0 <= k < |ts| ==> Askable(ts[k])
    ensures var log := Run(Mounted, [GreetingSettled(Payload(answer, error))] + TurnsEvents(ts)).messages;
      log == [Message(Bot, Shown(answer))] + Transcript(ts) &&
      |log| == 1 + 2 * |ts| && AlternatesFrom(log, Bot)
  {
    var g := [GreetingSettled(Payload(answer, error))];
    var s := SettleGreeting(Mounted, Payload(answer, error));
    RunConcat(Mounted, g, TurnsEvents(ts));
    assert Run(Mounted, g) == Run(s, []);
    GreetingThenCycles(s, ts);
    CyclesAppendTranscript(s, ts);
  }
}
