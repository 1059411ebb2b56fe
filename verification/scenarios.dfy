/**
 * Event orders driven from a new card. They show what the handlers achieve
 * together (a station found and its data shown, then a disconnect), and the
 * orders in which a handler meets a nil client, where the source panics.
 */
module Scenarios {
  import opened Topics
  import opened Binder
  import opened Card

  /** The address the prompt offers as its placeholder. */
  const Placeholder: string := "tcp://broker.emqx.io:1883/"

  /** The discovery topic published by station ST-12345. */
  const StationTopic: string := "homeassistant/sensor/weatherflow2mqtt_ST-12345/status/attributes"

  /** A new card whose first prompt was answered with the placeholder address; the goroutine waits on Connect. */
  method ConnectingCard() returns (card: WeatherCard)
    ensures fresh(card) && card.Valid()
    ensures card.tasks == Tasks(AwaitingConnect, Placeholder, true, false, false)
    ensures card.client == Client(false, {}) && card.cancel == Open(0) && !card.stop
    ensures card.prompts == 0 && card.standbyVisible && card.action == Connect && card.overlay == DisableColor
  {
    card := new WeatherCard();
    card.ShowConnectionPrompt();
    BrokerPlaceholderValid(Placeholder);
    ValidBrokerAddressIsShape(Placeholder);
    card.FormAnswered(true, Placeholder);
    card.StartConnect();
  }

  /** A card connected to the broker and subscribed to the discovery wildcard; the goroutine waits on Subscribe. */
  method SubscribedCard() returns (card: WeatherCard)
    ensures fresh(card) && card.Valid()
    ensures card.tasks == Tasks(AwaitingSubscribe, Placeholder, true, false, false)
    ensures card.client == Client(true, {DiscoveryWildcard}) && card.cancel == Open(0) && !card.stop
    ensures card.savedBroker == Placeholder && card.prompts == 0 && card.standbyVisible
    ensures card.action == Connect && card.overlay == DisableColor
  {
    card := ConnectingCard();
    var _ := card.WaitConnect(TokenDone(false));
    card.SubscribeDiscovery();
  }

  /**
   * A failed connect: the wait sets `stop`, tears down and prompts again, yet
   * answers true, so the goroutine reaches Subscribe with no client.
   */
  method FailedConnectReachesSubscribe() returns (card: WeatherCard)
    ensures card.tasks.phase == Subscribing && card.client == NoClient && card.stop
    ensures card.prompts == 1 && !card.standbyVisible
  {
    card := ConnectingCard();
    var proceed := card.WaitConnect(TokenDone(true));
  }

  /** The same with the user cancelling the standby dialog before the connect finishes. */
  method CancelledConnectReachesSubscribe() returns (card: WeatherCard)
    ensures card.tasks.phase == Subscribing && card.client == NoClient && card.stop
    ensures card.cancel == Open(0)
  {
    card := ConnectingCard();
    card.DialogClosed();
    var proceed := card.WaitConnect(CancelReceived);
  }

  /** With the wait answering whether the session is live, a failed connect ends the goroutine. */
  method FailedConnectStopsWhenChecked() returns (card: WeatherCard)
    ensures card.tasks.phase == Idle && card.client == NoClient && card.stop
    ensures card.prompts == 1
  {
    card := ConnectingCard();
    var proceed := card.WaitConnectChecked(TokenDone(true));
    assert !proceed;
  }

  /**
   * The station is found but its data cannot be subscribed to, so the handler
   * tears down and hides the standby dialog; the dialog's closed hook then
   * runs while the subscribe wait is pending. The hook sends because `stop`
   * is still clear, and the wait may take that send and call stopMqtt on the
   * nil client.
   */
  method FailedBindThenCancel() returns (card: WeatherCard)
    ensures card.tasks.phase == AwaitingSubscribe && card.client == NoClient && !card.stop
    ensures card.cancel == Open(1) && !WaitAllowed(card.Snapshot(), CancelReceived)
  {
    card := SubscribedCard();
    var subscribeRefused := (_: Step) => Failed("not subscribed");
    DiscoveryExample();
    SubscribeFailureAbortsFirst(subscribeRefused);
    card.DiscoveryMessage(StationTopic, subscribeRefused);
    card.DialogClosed();
  }

  /**
   * The station is found and every step of the bind succeeds: the labels are
   * bound to its telemetry and the card waits for the first data.
   */
  method BoundCard() returns (card: WeatherCard)
    ensures fresh(card) && card.Valid()
    ensures card.client == Client(true, {TelemetryTopic("12345")}) && card.bound == AllLabels
    ensures card.tasks == Tasks(Idle, Placeholder, true, true, true)
    ensures card.cancel == Open(0) && !card.stop && card.standbyVisible && card.prompts == 0
    ensures card.action == Connect && card.overlay == DisableColor
  {
    card := SubscribedCard();
    card.WaitSubscribe(TokenDone(false));
    var allFound := (_: Step) => Succeeded;
    DiscoveryExample();
    RunChainReportsFirstFailure(BindSteps, allFound);
    DiscoveredOutcome(card.Snapshot(), "12345", allFound);
    card.DiscoveryMessage(StationTopic, allFound);
  }

  /**
   * The rest of the happy path: an empty update is ignored, the first data
   * enables the card, and the watcher, woken by the closed channel, leaves
   * the live session alone.
   */
  method ConnectedCard() returns (card: WeatherCard)
    ensures fresh(card) && card.Valid()
    ensures card.client == Client(true, {TelemetryTopic("12345")})
    ensures card.bound == AllLabels && card.action == Disconnect && card.overlay == EnableColor
    ensures !card.standbyVisible && card.stop && card.cancel == Closed && card.prompts == 0
    ensures card.tasks == Tasks(Idle, Placeholder, true, false, false)
  {
    card := BoundCard();
    card.DataChanged(true);
    card.DataChanged(false);
    card.WatcherWakes();
  }

  /** Pressing "Disconnect" on a live card unbinds the labels, drops the client and prompts again. */
  method DisconnectLiveCard() returns (card: WeatherCard)
    ensures card.client == NoClient && card.bound == {} && card.action == Connect
    ensures card.overlay == DisableColor && card.prompts == 1
  {
    card := ConnectedCard();
    card.ActionPressed();
  }
}
