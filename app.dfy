/**
 * The TradeBot component (chat/src/App.js) as an object: its state
 * variables are fields, and each handler or effect callback is a method
 * that updates them step by step. Every method is proved against the
 * corresponding step of Conversation or TradeTable, where the properties of
 * those steps are proved.
 */
module AppComponent {
  import opened JsValues
  import opened Conversation
  import opened TradeTable

  class App {
    var input: string
    var messages: seq<Message>
    var loading: bool
    var trades: TradesValue
    var loadingTrades: bool
    // the requests issued and not yet settled
    ghost var asksInFlight: nat
    ghost var greetingInFlight: bool
    ghost var tradesInFlight: bool

    /** The chat fields as a value. */
    ghost function Chat(): ChatState
      reads this
    {
      ChatState(input, messages, loading, asksInFlight, greetingInFlight)
    }

    /** The trade fields as a value. */
    ghost function Trades(): TradesState
      reads this
    {
      TradesState(trades, loadingTrades, tradesInFlight)
    }

    /**
     * Mounting: the initial `useState` values, then the two mount effects
     * issue the greeting request and the trades request.
     */
    constructor ()
      ensures Chat() == Mounted && Trades() == TradesMounted
      ensures messages == [] && input == "" && !loading && loadingTrades && trades == Rows([])
    {
      input := "";
      messages := [];
      loading := false;
      trades := Rows([]);
      loadingTrades := true;
      asksInFlight := 0;
      greetingInFlight := true;
      tradesInFlight := true;
    }

    /** The textarea's onChange. */
    method OnInputChange(text: string)
      modifies this
      ensures Chat() == TypeInput(old(Chat()), text) && Trades() == old(Trades())
    {
      input := text;
    }

    /**
     * `sendMessage` up to its `await`: a blank input changes nothing;
     * otherwise the trimmed question is logged, the input cleared, `loading`
     * raised and the request issued.
     */
    method SendMessage()
      modifies this
      ensures Chat() == Submit(old(Chat())) && Trades() == old(Trades())
      ensures IsBlank(old(input)) ==> unchanged(this)
      ensures !IsBlank(old(input)) ==>
        messages == old(messages) + [Message(User, Str(Trim(old(input))))] &&
        input == "" && loading && asksInFlight == old(asksInFlight) + 1
    {
      TrimEmptyIffBlank(input);
      var question := Trim(input);
      if question == "" {
        return;
      }
      messages := messages + [Message(User, Str(question))];
      input := "";
      loading := true;
      asksInFlight := asksInFlight + 1;
    }

    /**
     * `sendMessage` after its request settles: one bot message, chosen by the
     * error, answer or catch branch, then `loading` cleared.
     */
    method ResolveAsk(o: AskOutcome)
      requires asksInFlight > 0
      modifies this
      ensures Chat() == SettleAsk(old(Chat()), o) && Trades() == old(Trades())
      ensures messages == old(messages) + [BotReply(o)] && !loading
    {
      match o {
        case TransportFailure =>
          messages := messages + [Message(Bot, Str(ConnectionFailureText))];
        case Payload(answer, error) =>
          if Truthy(error) {
            messages := messages + [Message(Bot, Str(ErrorPrefix + error.value))];
          } else {
            messages := messages + [Message(Bot, Shown(answer))];
          }
      }
      loading := false;
      asksInFlight := asksInFlight - 1;
    }

    /** The greeting effect after its request settles. */
    method ResolveGreeting(o: AskOutcome)
      requires greetingInFlight
      modifies this
      ensures Chat() == SettleGreeting(old(Chat()), o) && Trades() == old(Trades())
      ensures o.Payload? ==> messages == [Message(Bot, Shown(o.answer))]
      ensures o.TransportFailure? ==> messages == old(messages)
    {
      if o.Payload? {
        messages := [Message(Bot, Shown(o.answer))];
      }
      greetingInFlight := false;
    }

    /** `handleKeyDown`: Enter without Shift prevents the newline and sends. */
    method HandleKeyDown(key: string, shiftKey: bool) returns (preventDefault: bool)
      modifies this
      ensures preventDefault == KeyTriggersSubmit(key, shiftKey)
      ensures Chat() == KeyDown(old(Chat()), key, shiftKey) && Trades() == old(Trades())
    {
      preventDefault := false;
      if key == "Enter" && !shiftKey {
        preventDefault := true;
        SendMessage();
      }
    }

    /** The trades effect after its request settles. */
    method ResolveTrades(o: TradesOutcome)
      requires tradesInFlight
      modifies this
      ensures Trades() == SettleTrades(old(Trades()), o) && Chat() == old(Chat())
      ensures !loadingTrades
    {
      match o {
        case TradesPayload(data) =>
          if !Truthy(ErrorField(data)) {
            trades := Stored(data);
          }
        case TradesFailure =>
      }
      loadingTrades := false;
      tradesInFlight := false;
    }

    /**
     * Delivers one event that the rendered controls let through; the
     * discipline of one question at a time, once established, is kept.
     */
    method Dispatch(e: UiEvent) returns (preventDefault: bool)
      requires CanOccur(Chat(), e)
      modifies this
      ensures Chat() == Step(old(Chat()), e) && Trades() == old(Trades())
      ensures preventDefault == (e.KeyPressed? && KeyTriggersSubmit(e.key, e.shiftKey))
      ensures OneAskAtATime(old(Chat())) ==> OneAskAtATime(Chat())
    {
      ghost var before := Chat();
      if OneAskAtATime(before) {
        StepKeepsOneAskAtATime(before, e);
      }
      preventDefault := false;
      match e {
        case Typed(text) => OnInputChange(text);
        case KeyPressed(key, shiftKey) => preventDefault := HandleKeyDown(key, shiftKey);
        case SendClicked => SendMessage();
        case AskSettled(o) => ResolveAsk(o);
        case GreetingSettled(o) => ResolveGreeting(o);
      }
    }
  }
}
