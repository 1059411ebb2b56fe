/**
 * The weather card and the event handlers that drive its connection session.
 *
 * In the source the handlers run on the UI thread, on the broker client's
 * delivery goroutines and on goroutines of their own, and they coordinate
 * through the `stop` flag and the `cancel` channel. Every handler reads the
 * card's fields when it runs, so the model turns each handler into a method
 * of the card that the environment may call in any order the source allows.
 * Where the source would panic (a method call on a nil client, a close that
 * makes a blocked sender panic), the method's precondition excludes the
 * state; the client methods in scenarios.dfy show event orders that reach
 * such states.
 */
module Card {
  import opened Topics
  import opened Binder

  /**
   * The card's broker client: none (nil), or one that is or is not
   * connected, together with the topics it is subscribed to.
   */
  datatype Client = NoClient | Client(connected: bool, subscriptions: set<string>)

  /**
   * The `cancel` channel (unbuffered): nil before the first connection,
   * open with some senders blocked on it, or closed.
   */
  datatype Cancel = NilChannel | Open(blockedSends: nat) | Closed

  datatype Overlay = DisableColor | EnableColor

  /** The two texts of the action button, "Connect" and "Disconnect". */
  datatype ButtonText = Connect | Disconnect

  /** The six measurement labels of the card. */
  datatype Label = Temperature | Humidity | Pressure | Wind | Uv | Rain

  const AllLabels: set<Label> := {Temperature, Humidity, Pressure, Wind, Uv, Rain}

  /** Progress of the asynchronousConnect goroutine of the current attempt. */
  datatype Phase =
    | Idle               // no goroutine, or it has returned
    | Starting           // spawned by the form, hook not yet installed
    | AwaitingConnect    // waiting on the connect token or the cancel channel
    | Subscribing        // about to subscribe to the discovery wildcard
    | AwaitingSubscribe  // waiting on the subscribe token or the cancel channel

  /**
   * What the current session runs besides the client: the connecting
   * goroutine and the broker address it was given, the dialog-closed hook,
   * the readiness listener and the cancellation watcher.
   */
  datatype Tasks = Tasks(phase: Phase, broker: string, hook: bool, listener: bool, watcher: bool)

  const NoTasks: Tasks := Tasks(Idle, "", false, false, false)

  /** Which case of the select in waitCancelOrStepSuccess fires. */
  datatype WaitEvent = CancelReceived | TokenDone(failed: bool)

  /** A receive on the channel can complete: a sender is blocked on it, or it is closed. */
  predicate Receivable(c: Cancel) {
    (c.Open? && c.blockedSends > 0) || c.Closed?
  }

  /** The channel after one receive: one blocked sender is released. */
  function Received(c: Cancel): (d: Cancel)
    requires Receivable(c)
    ensures c.Closed? ==> d == Closed
    ensures c.Open? ==> d.Open? && d.blockedSends + 1 == c.blockedSends
  {
    if c.Open? then Open(c.blockedSends - 1) else c
  }

  /** The card's fields, as a value. */
  datatype CardState = CardState(
    client: Client,
    cancel: Cancel,
    stop: bool,
    bound: set<Label>,     // labels bound to the device's data
    action: ButtonText,
    overlay: Overlay,
    standbyVisible: bool,  // the "Setting up MQTT connection" dialog
    prompts: nat,          // connection prompts shown and not yet answered
    tasks: Tasks,
    savedBroker: string)   // the stored broker preference

  /** What every reachable state satisfies. */
  ghost predicate Inv(s: CardState) {
    // the channel is closed only after `stop` was set
    (s.cancel.Closed? ==> s.stop) &&
    // a nil channel means no connection attempt was ever made
    (s.cancel.NilChannel? ==> s.client == NoClient && s.tasks == NoTasks) &&
    // the readiness listener is fed by the current client, is attached only
    // after the wildcard was dropped and finds the channel still open
    (s.tasks.listener ==> s.client.Client? && s.cancel.Open? &&
                          s.tasks.phase in {AwaitingSubscribe, Idle} &&
                          DiscoveryWildcard !in s.client.subscriptions) &&
    // a wildcard subscription belongs to a session whose channel is open
    (s.client.Client? && DiscoveryWildcard in s.client.subscriptions ==>
       s.cancel.Open? && s.tasks.phase in {AwaitingSubscribe, Idle}) &&
    // before the wildcard subscription the channel is open and not yet subscribed
    (s.tasks.phase in {Starting, AwaitingConnect, Subscribing} ==>
       s.cancel.Open? && (s.client.Client? ==> DiscoveryWildcard !in s.client.subscriptions))
  }

  /** connectionDialogShow: one more prompt on screen, card greyed out. */
  function Prompted(s: CardState): (t: CardState)
    ensures t.prompts == s.prompts + 1 && t.overlay == DisableColor
    ensures t.(prompts := s.prompts, overlay := s.overlay) == s
  {
    s.(prompts := s.prompts + 1, overlay := DisableColor)
  }

  /**
   * stopMqtt: the client is disconnected and dropped whatever its state; the
   * wildcard unsubscription and the unbinding of the labels happen only when
   * the client reports connected; the standby dialog is hidden only when one
   * is passed. The readiness listener fed by the client goes with it. `stop`
   * and the channel are left alone.
   */
  function TornDown(s: CardState, hideStandby: bool): (t: CardState)
    requires s.client.Client?
    ensures t.client == NoClient && !t.tasks.listener && t.action == Connect
    ensures t.bound == (if s.client.connected then {} else s.bound)
    ensures t.standbyVisible == (s.standbyVisible && !hideStandby)
    ensures t.stop == s.stop && t.cancel == s.cancel
    ensures t.tasks == s.tasks.(listener := false)
    ensures t.prompts == s.prompts && t.overlay == s.overlay && t.savedBroker == s.savedBroker
    ensures Inv(s) ==> Inv(t)
  {
    s.(client := NoClient,
       bound := if s.client.connected then {} else s.bound,
       action := Connect,
       standbyVisible := s.standbyVisible && !hideStandby,
       tasks := s.tasks.(listener := false))
  }

  /** The select of waitCancelOrStepSuccess can take `ev` and the teardown it may lead to has a client. */
  predicate WaitAllowed(s: CardState, ev: WaitEvent) {
    (ev.CancelReceived? ==> Receivable(s.cancel)) &&
    ((s.stop || ev.CancelReceived? || ev == TokenDone(true)) ==> s.client.Client?)
  }

  /**
   * waitCancelOrStepSuccess: a received cancellation or a failed token sets
   * `stop`; whenever `stop` is then set (also when it was already set) the
   * session is torn down, hiding the standby dialog, and the prompt is shown
   * again. A successful token with `stop` clear changes nothing.
   */
  function AfterWait(s: CardState, ev: WaitEvent): (t: CardState)
    requires WaitAllowed(s, ev)
    ensures t.stop == (s.stop || ev.CancelReceived? || ev == TokenDone(true))
    ensures t.cancel == (if ev.CancelReceived? then Received(s.cancel) else s.cancel)
    ensures t.stop ==> t.client == NoClient && t.action == Connect && !t.standbyVisible &&
                       t.prompts == s.prompts + 1 && t.overlay == DisableColor
    ensures !t.stop ==> t == s
    ensures t.tasks.phase == s.tasks.phase
    ensures Inv(s) ==> Inv(t)
  {
    var s1 := s.(stop := s.stop || ev.CancelReceived? || ev == TokenDone(true),
                 cancel := if ev.CancelReceived? then Received(s.cancel) else s.cancel);
    if s1.stop then Prompted(TornDown(s1, true)) else s1
  }

  /** A resolved connect token leaves the client connected (if there still is one). */
  function AfterConnectToken(s: CardState, ev: WaitEvent): (t: CardState)
    ensures t.client.Client? == s.client.Client?
    ensures t.client.Client? ==> t.client.subscriptions == s.client.subscriptions
    ensures t.client.Client? ==> t.client.connected == (s.client.connected || ev == TokenDone(false))
    ensures t.(client := s.client) == s
  {
    if ev == TokenDone(false) && s.client.Client? then s.(client := s.client.(connected := true)) else s
  }

  /**
   * The confirmed prompt: a fresh session with a new open channel, `stop`
   * cleared, a new unconnected client without subscriptions, the standby
   * dialog on screen and a connecting goroutine for `address`. The previous
   * client is replaced, not disconnected; the labels, the button and the
   * overlay are left as they were.
   */
  function NewSession(s: CardState, address: string): (t: CardState)
    ensures t.cancel == Open(0) && !t.stop && t.client == Client(false, {}) && t.standbyVisible
    ensures t.tasks == Tasks(Starting, address, false, false, false)
    ensures t.bound == s.bound && t.action == s.action && t.overlay == s.overlay
    ensures t.prompts == s.prompts && t.savedBroker == s.savedBroker
    ensures Inv(t)
  {
    s.(standbyVisible := true, cancel := Open(0), stop := false, client := Client(false, {}),
       tasks := Tasks(Starting, address, false, false, false))
  }

  /**
   * The discovery handler once the topic matched with `serial`: the wildcard
   * is unsubscribed first, then the device is bound. A failed bind tears down
   * (hiding the standby dialog) and re-prompts; a successful one attaches the
   * readiness listener and starts the cancellation watcher. The device
   * subscription is made by the first step, whatever happens later.
   */
  function Discovered(s: CardState, serial: string, outcome: Step -> Outcome): (t: CardState)
    requires s.client.Client?
  {
    var subscribed := (s.client.subscriptions - {DiscoveryWildcard}) +
                      (if outcome(SubscribeTelemetry).Succeeded? then {TelemetryTopic(serial)} else {});
    var u := s.(client := s.client.(subscriptions := subscribed));
    if RunChain(BindSteps, outcome).Bound?
    then u.(bound := AllLabels, tasks := u.tasks.(listener := true, watcher := true))
    else Prompted(TornDown(u, true))
  }

  /**
   * What the discovery handler leaves behind. A bound device: all six labels
   * bound, the listener and the watcher running, the client subscribed to the
   * device's telemetry topic and no longer to the wildcard. A failed bind: no
   * client, no listener, a "Connect" button, the standby dialog hidden and
   * one more prompt; the watcher was never started.
   */
  lemma DiscoveredOutcome(s: CardState, serial: string, outcome: Step -> Outcome)
    requires Inv(s) && s.client.Client? && DiscoveryWildcard in s.client.subscriptions
    ensures var t := Discovered(s, serial, outcome);
      Inv(t) &&
      (RunChain(BindSteps, outcome).Bound? ==>
        t.bound == AllLabels && t.tasks == s.tasks.(listener := true, watcher := true) &&
        t.(client := s.client, bound := s.bound, tasks := s.tasks) == s &&
        t.client == s.client.(subscriptions := (s.client.subscriptions - {DiscoveryWildcard}) + {TelemetryTopic(serial)}) &&
        DiscoveryWildcard !in t.client.subscriptions && TelemetryTopic(serial) in t.client.subscriptions) &&
      (RunChain(BindSteps, outcome).Aborted? ==>
        t.client == NoClient && !t.tasks.listener && t.tasks.watcher == s.tasks.watcher &&
        t.action == Connect && !t.standbyVisible && t.prompts == s.prompts + 1 &&
        t.bound == (if s.client.connected then {} else s.bound))
  {
    SubscribeFailureAbortsFirst(outcome);
    TelemetryTopicLayout(serial);
  }

  class WeatherCard {
    var client: Client
    var cancel: Cancel
    var stop: bool
    var bound: set<Label>
    var action: ButtonText
    var overlay: Overlay
    var standbyVisible: bool
    var prompts: nat
    var tasks: Tasks
    var savedBroker: string

    ghost function Snapshot(): CardState
      reads this
    {
      CardState(client, cancel, stop, bound, action, overlay, standbyVisible, prompts, tasks, savedBroker)
    }

    ghost predicate Valid()
      reads this
    {
      Inv(Snapshot())
    }

    /** newWeatherCard: placeholder labels, a "Connect" button, a disabled overlay, no session. */
    constructor ()
      ensures Valid()
      ensures Snapshot() == CardState(NoClient, NilChannel, false, {}, Connect, DisableColor,
                                      false, 0, NoTasks, "")
    {
      client, cancel, stop := NoClient, NilChannel, false;
      bound, action, overlay := {}, Connect, DisableColor;
      standbyVisible, prompts := false, 0;
      tasks, savedBroker := NoTasks, "";
    }

    method Enable()
      modifies this
      ensures Snapshot() == old(Snapshot()).(overlay := EnableColor)
    {
      overlay := EnableColor;
    }

    method Disable()
      modifies this
      ensures Snapshot() == old(Snapshot()).(overlay := DisableColor)
    {
      overlay := DisableColor;
    }

    /** connectionDialogShow: shows a new prompt and disables the card. */
    method ShowConnectionPrompt()
      requires Valid()
      modifies this
      ensures Valid()
      ensures Snapshot() == Prompted(old(Snapshot()))
    {
      prompts := prompts + 1;
      Disable();
    }

    /** stopMqtt; the source dereferences the client without a nil check. */
    method StopMqtt(hideStandby: bool)
      requires Valid() && client.Client?
      modifies this
      ensures Valid()
      ensures Snapshot() == TornDown(old(Snapshot()), hideStandby)
    {
      if client.connected {
        client := client.(subscriptions := client.subscriptions - {DiscoveryWildcard});
        bound := {};
      }
      action := Connect;
      // Disconnect(0) ends the broker session; the card drops the client and
      // with it the readiness listener the client fed.
      client, tasks := NoClient, tasks.(listener := false);
      if hideStandby {
        standbyVisible := false;
      }
    }

    /** The source's recurring `stopMqtt` followed by `connectionDialogShow`. */
    method StopAndPrompt(hideStandby: bool)
      requires Valid() && client.Client?
      modifies this
      ensures Valid()
      ensures Snapshot() == Prompted(TornDown(old(Snapshot()), hideStandby))
    {
      StopMqtt(hideStandby);
      ShowConnectionPrompt();
    }

    /**
     * The prompt form's callback. The form only confirms an address that
     * passes its validator (see ValidBrokerAddressIsShape); a confirmed
     * answer starts a new session.
     */
    method FormAnswered(confirm: bool, address: string)
      requires Valid() && prompts > 0 && tasks.phase == Idle
      requires confirm ==> MatchesBrokerPattern(address)
      modifies this
      ensures Valid()
      ensures !confirm ==> Snapshot() == old(Snapshot()).(prompts := old(prompts) - 1)
      ensures confirm ==> Snapshot() == NewSession(old(Snapshot()).(prompts := old(prompts) - 1), address)
    {
      prompts := prompts - 1;
      if !confirm {
        return;
      }
      standbyVisible := true;
      cancel, stop := Open(0), false;
      client := Client(false, {});
      tasks := Tasks(Starting, address, false, false, false);
    }

    /** First steps of asynchronousConnect: install the dialog-closed hook, then call Connect. */
    method StartConnect()
      requires Valid() && tasks.phase == Starting
      requires client.Client?
      modifies this
      ensures Valid()
      ensures Snapshot() == old(Snapshot()).(tasks := old(tasks).(hook := true, phase := AwaitingConnect))
    {
      tasks := tasks.(hook := true, phase := AwaitingConnect);
    }

    /**
     * The dialog-closed hook: it runs as the standby dialog closes, so the
     * dialog is off screen; it sends on the channel only while `stop` is clear.
     */
    method DialogClosed()
      requires Valid() && tasks.hook
      modifies this
      ensures Valid()
      ensures old(stop) ==> Snapshot() == old(Snapshot()).(standbyVisible := false)
      ensures !old(stop) ==> old(cancel).Open?
      ensures !old(stop) ==> Snapshot() == old(Snapshot()).(cancel := Open(old(cancel).blockedSends + 1),
                                                           standbyVisible := false)
    {
      standbyVisible := false;
      if !stop {
        cancel := Open(cancel.blockedSends + 1);
      }
    }

    /** waitCancelOrStepSuccess, as written: it returns true on every path. */
    method WaitCancelOrStepSuccess(ev: WaitEvent) returns (ok: bool)
      requires Valid() && WaitAllowed(Snapshot(), ev)
      modifies this
      ensures Valid()
      ensures ok
      ensures Snapshot() == AfterWait(old(Snapshot()), ev)
    {
      if ev.CancelReceived? {
        cancel := Received(cancel);
        stop := true;
      } else if ev.failed {
        stop := true;
      }
      if stop {
        StopAndPrompt(true);
      }
      ok := true;
    }

    /**
     * The connect wait of asynchronousConnect. Because the wait always
     * answers true, the goroutine goes on to subscribe even after a
     * cancellation or a failed connect.
     */
    method WaitConnect(ev: WaitEvent) returns (proceed: bool)
      requires Valid() && tasks.phase == AwaitingConnect
      requires WaitAllowed(Snapshot(), ev)
      modifies this
      ensures Valid()
      ensures proceed && tasks.phase == Subscribing
      ensures var t := AfterWait(AfterConnectToken(old(Snapshot()), ev), ev);
        Snapshot() == t.(tasks := t.tasks.(phase := Subscribing))
    {
      if ev == TokenDone(false) && client.Client? {
        client := client.(connected := true);
      }
      proceed := WaitCancelOrStepSuccess(ev);
      tasks := tasks.(phase := Subscribing);
    }

    /**
     * The connect wait with the wait answering whether the session is still
     * live (`!stop`): a cancelled or failed connect ends the goroutine.
     */
    method WaitConnectChecked(ev: WaitEvent) returns (proceed: bool)
      requires Valid() && tasks.phase == AwaitingConnect
      requires WaitAllowed(Snapshot(), ev)
      modifies this
      ensures Valid()
      ensures proceed <==> !stop
      ensures proceed ==> tasks.phase == Subscribing && client.Client? == old(client.Client?)
      ensures !proceed ==> tasks.phase == Idle
      ensures (ev.CancelReceived? || ev == TokenDone(true)) ==> !proceed
      ensures var t := AfterWait(AfterConnectToken(old(Snapshot()), ev), ev);
        Snapshot() == t.(tasks := t.tasks.(phase := if t.stop then Idle else Subscribing))
    {
      if ev == TokenDone(false) && client.Client? {
        client := client.(connected := true);
      }
      var _ := WaitCancelOrStepSuccess(ev);
      proceed := !stop;
      if !proceed {
        tasks := tasks.(phase := Idle);
        return;
      }
      tasks := tasks.(phase := Subscribing);
    }

    /** Stores the broker preference and subscribes to the discovery wildcard. */
    method SubscribeDiscovery()
      requires Valid() && tasks.phase == Subscribing
      requires client.Client?
      modifies this
      ensures Valid()
      ensures Snapshot() == old(Snapshot()).(
        savedBroker := old(tasks).broker,
        client := old(client).(subscriptions := old(client).subscriptions + {DiscoveryWildcard}),
        tasks := old(tasks).(phase := AwaitingSubscribe))
    {
      savedBroker := tasks.broker;
      client := client.(subscriptions := client.subscriptions + {DiscoveryWildcard});
      tasks := tasks.(phase := AwaitingSubscribe);
    }

    /** The final wait of asynchronousConnect, on the subscribe token; then the goroutine returns. */
    method WaitSubscribe(ev: WaitEvent)
      requires Valid() && tasks.phase == AwaitingSubscribe
      requires WaitAllowed(Snapshot(), ev)
      modifies this
      ensures Valid()
      ensures var t := AfterWait(old(Snapshot()), ev); Snapshot() == t.(tasks := t.tasks.(phase := Idle))
    {
      var _ := WaitCancelOrStepSuccess(ev);
      tasks := tasks.(phase := Idle);
    }

    /**
     * connectWeather2Mqtt: subscribes to the device topic (first step), then
     * runs the remaining steps; the six labels are bound only when every step
     * succeeded. A later failure leaves the device subscription in place.
     */
    method ConnectWeather2Mqtt(serial: string, outcome: Step -> Outcome) returns (r: ChainResult)
      requires Valid() && client.Client?
      modifies this
      ensures Valid()
      ensures r == RunChain(BindSteps, outcome)
      ensures Snapshot() == old(Snapshot()).(
        client := if outcome(SubscribeTelemetry).Succeeded?
                  then old(client).(subscriptions := old(client).subscriptions + {TelemetryTopic(serial)})
                  else old(client),
        bound := if r.Bound? then AllLabels else old(bound))
    {
      TelemetryTopicLayout(serial);
      r := RunChain(BindSteps, outcome);
      if outcome(SubscribeTelemetry).Succeeded? {
        client := client.(subscriptions := client.subscriptions + {TelemetryTopic(serial)});
      }
      if r.Bound? {
        bound := AllLabels;
      }
    }

    /**
     * The discovery message handler: a topic without a match changes
     * nothing; a match goes on with the captured serial (see Discovered).
     */
    method DiscoveryMessage(topic: string, outcome: Step -> Outcome)
      requires Valid() && client.Client? && DiscoveryWildcard in client.subscriptions
      modifies this
      ensures Valid()
      ensures MatchDiscoveryTopic(topic).None? ==> Snapshot() == old(Snapshot())
      ensures MatchDiscoveryTopic(topic).Some? ==>
        Snapshot() == Discovered(old(Snapshot()), MatchDiscoveryTopic(topic).value, outcome)
    {
      var r := MatchDiscoveryTopic(topic);
      if r.None? {
        return;
      }
      BindDiscovered(r.value, outcome);
    }

    /** The discovery handler after a match; see Discovered. */
    method BindDiscovered(serial: string, outcome: Step -> Outcome)
      requires Valid() && client.Client? && DiscoveryWildcard in client.subscriptions
      modifies this
      ensures Valid()
      ensures Snapshot() == Discovered(old(Snapshot()), serial, outcome)
    {
      // Stop looking for further stations before binding this one.
      client := client.(subscriptions := client.subscriptions - {DiscoveryWildcard});
      var result := ConnectWeather2Mqtt(serial, outcome);
      if result.Aborted? {
        StopAndPrompt(true);
        return;
      }
      tasks := tasks.(listener := true, watcher := true);
    }

    /**
     * The readiness listener. While the data is empty it does nothing. The
     * first non-empty update removes the listener, sets `stop`, closes the
     * channel, enables the card, relabels the button and hides the standby
     * dialog. Closing a channel that a sender is blocked on makes that sender
     * panic, so the model requires no blocked sender. That the channel is
     * still open, so that it is closed at most once, follows from Inv.
     */
    method DataChanged(empty: bool)
      requires Valid() && tasks.listener
      requires !empty ==> !(cancel.Open? && cancel.blockedSends > 0)
      modifies this
      ensures Valid()
      ensures !empty ==> old(cancel) == Open(0)
      ensures empty ==> Snapshot() == old(Snapshot())
      ensures !empty ==> Snapshot() == old(Snapshot()).(
        tasks := old(tasks).(listener := false), stop := true, cancel := Closed,
        overlay := EnableColor, action := Disconnect, standbyVisible := false)
    {
      if empty {
        return;
      }
      assert cancel.Open?;
      tasks := tasks.(listener := false);
      stop, cancel := true, Closed;
      Enable();
      action := Disconnect;
      standbyVisible := false;
    }

    /**
     * The cancellation watcher, once its receive completes: it tears down
     * (keeping the standby dialog) and re-prompts only when `stop` is clear.
     */
    method WatcherWakes()
      requires Valid() && tasks.watcher && Receivable(cancel)
      requires !stop ==> client.Client?
      modifies this
      ensures Valid()
      ensures var s := old(Snapshot()).(cancel := Received(old(cancel)), tasks := old(tasks).(watcher := false));
        Snapshot() == if old(stop) then s else Prompted(TornDown(s, false))
    {
      cancel := Received(cancel);
      tasks := tasks.(watcher := false);
      if !stop {
        StopAndPrompt(false);
      }
    }

    /** The Connect/Disconnect button: tears down only when a client exists, then always prompts. */
    method ActionPressed()
      requires Valid()
      modifies this
      ensures Valid()
      ensures Snapshot() == Prompted(if old(client).Client? then TornDown(old(Snapshot()), false) else old(Snapshot()))
    {
      if client.Client? {
        StopMqtt(false);
      }
      ShowConnectionPrompt();
    }

    /** The broker client's own connection changes (loss, automatic reconnection). */
    method ConnectionChanged(up: bool)
      requires Valid() && client.Client?
      modifies this
      ensures Valid()
      ensures Snapshot() == old(Snapshot()).(client := old(client).(connected := up))
    {
      client := client.(connected := up);
    }
  }
}
