# mqttweather: the weather card's connection session, in Dafny

This project models the core of `mqttweather`, a small desktop application
that connects to an MQTT broker, discovers a Tempest weather station
published by weatherflow2mqtt, and shows the station's measurements on a
card. The core is the card's connection session, from `server.go` and
`weather.go`:

- The prompt form's callback starts a session. It makes a new `cancel`
  channel, clears `stop`, creates a client and spawns `asynchronousConnect`.
- `asynchronousConnect` installs a dialog-closed hook, waits on Connect
  (`waitCancelOrStepSuccess`), saves the broker, subscribes to the discovery
  wildcard and waits on Subscribe.
- The discovery message handler matches the announcement topic and
  unsubscribes the wildcard. It then binds the labels to the station's
  telemetry (`connectWeather2Mqtt`). On success it attaches a one-shot
  readiness listener and starts a cancellation watcher.
- `stopMqtt` tears the session down. The Connect/Disconnect button tears
  down and prompts again.

The model has four modules, one file each.

- `topics.dfy` (`Topics`) holds the pure string contracts:
  - the discovery pattern `homeassistant/sensor/weatherflow2mqtt_ST-(\d+)/status/attributes`,
    searched the way Go's `regexp` does it (unanchored, leftmost match, group 1);
  - the per-device telemetry topic;
  - the broker validator `(tcp|ws)://[a-z0-9-._-]+:\d+/`, also unanchored.

  Each search is a scanning function. A lemma ties it to a reference reading
  of the pattern.
- `binder.dfy` (`Binder`) models the fail-fast setup of `connectWeather2Mqtt`.
  It has thirteen fallible steps in source order: subscribe, decode, nine
  field lookups and two formatted labels. This is a fold that stops at the
  first failure. Each step's outcome is chosen by the environment.
- `card.dfy` (`Card`) holds the class `WeatherCard`. It has one method per
  handler and per step of the connecting goroutine. Each method's new state
  is stated through a pure function of the old state (`TornDown`,
  `AfterWait`, `NewSession`, `Discovered`, …). Every method keeps the
  invariant `Inv`:
  - the channel is closed only once `stop` is set;
  - a nil channel means that no session was ever started;
  - the readiness listener exists only while a client does, is attached
    only after the wildcard was dropped, and finds the channel still open;
  - a wildcard subscription, and every phase before it, belongs to a session
    whose channel is open.

  Together these prove that the listener's `close` always meets an open
  channel, so the channel is closed at most once.
- `scenarios.dfy` (`Scenarios`) drives a new card through event orders:
  - the happy path, from the prompt to live data and then a disconnect;
  - the orders in which a handler reaches `stopMqtt` or `Subscribe` with a
    nil client, where the source would panic.

How concurrency is modelled:

- Goroutines and channels become events the environment calls in any order
  the source allows. Each handler reads the card's fields when it runs,
  just as the Go closures read `app.card.*`.
- The unbuffered `cancel` channel is `NilChannel`, `Open(blockedSends)` or
  `Closed`. A send by the hook adds a blocked sender. A receive completes
  only when a sender is blocked or the channel is closed.
- In Go, closing a channel that a sender is blocked on succeeds, but the
  blocked sender then panics. So the listener's `close` requires that no
  sender is blocked.
- A method call on a nil client also panics, so the methods that make one
  require a client. `WaitAllowed` states this for the wait step. It requires
  a client whenever the wait will tear down.

The card keeps a few things that are not fields in the source: the
connecting goroutine's phase, the hook, the listener, the watcher, the
standby dialog, the open prompts and the saved broker. It holds the client's
subscriptions inside the `Client` value. They belong to the broker session
and disappear with it.

## Model

| member | source | states |
|---|---|---|
| Topics.RunEnd | server.go:67 | the greedy run of a character class (`\d+`, `[a-z0-9-._-]+`) starting at `j`: every character before the end is in the class and the end is the string's end or a character outside it |
| Topics.CaptureAtSound | server.go:67 | an anchored attempt of `pre(\d+)post` that captures `d` is a real match: `pre + d + post` occurs there and `d` is a non-empty digit string |
| Topics.CaptureAtComplete | server.go:67 | since the text after the group starts with a non-digit, every match at a position is found by the greedy anchored attempt with the same capture |
| Topics.SerialAtIsMatch | server.go:67 | the anchored discovery attempt captures `d` exactly when the pattern matches there with group `d` |
| Topics.SerialAt | server.go:67 | the discovery pattern tried at one position: a capture means the device prefix occurs there and the capture is a non-empty run of digits |
| Topics.FindSerialFrom | server.go:73 | the unanchored left-to-right search for the discovery pattern; whatever it returns is a non-empty run of digits |
| Topics.FindSerialFromIsLeftmost | server.go:73 | the left-to-right search finds no match only when none exists, and otherwise returns the capture of the leftmost match |
| Topics.MatchDiscoveryTopic | server.go:73-76 | the serial found in a discovery topic is a non-empty run of digits |
| Topics.MatchDiscoveryTopicIsLeftmost | server.go:67-76 | FindStringSubmatch's group 1 is `d` if and only if the leftmost match captures `d`; no result if and only if the pattern matches nowhere |
| Topics.DiscoveryExample | server.go:67-73 | the announcement of station ST-12345 yields serial "12345" |
| Topics.DiscoveryIgnoresOtherDevices | server.go:67-76 | every topic in which the `homeassistant/sensor/weatherflow2mqtt_ST-` prefix occurs nowhere (another device's topic) yields no serial, so the handler returns at once |
| Topics.DiscoveryIgnoresOutdoorTemp | server.go:73-76 | for example the status topic of an `outdoor_temp` sensor yields no serial |
| Topics.TelemetryTopic | weather.go:72 | the device topic the binder subscribes to, built from the serial; its layout and injectivity are stated by TelemetryTopicLayout and TelemetryTopicInjective |
| Topics.TelemetryTopicLayout | weather.go:72 | the telemetry topic is exactly the device prefix, the serial and "/observation/state", in that order; the serial reads back from it; it is never the discovery wildcard |
| Topics.TelemetryTopicInjective | weather.go:72 | different serials give different telemetry topics |
| Topics.SchemeEndOfShape | server.go:131 | the scheme alternation (`tcp://` or `ws://`) ends where the matched scheme ends |
| Topics.BrokerMatchAtIsShape | server.go:131 | an attempt anchored at `i` succeeds exactly when scheme, host run, ':', digit run and '/' line up from `i` |
| Topics.BrokerMatchFromIsShape | server.go:131 | scanning from `i` succeeds exactly when the pattern matches at some position at or after `i` |
| Topics.ValidBrokerAddressIsShape | server.go:131 | the validator accepts an address if and only if the pattern matches somewhere in it (unanchored) |
| Topics.ValidBrokerAddress | server.go:131 | the prompt's validator, an unanchored scan of the address; ValidBrokerAddressIsShape states which addresses it accepts |
| Topics.BrokerPlaceholderValid | server.go:130-131 | the placeholder `tcp://broker.emqx.io:1883/` passes the validator |
| Topics.BrokerWithoutSchemeInvalid | server.go:131 | every address in which neither `tcp://` nor `ws://` occurs fails the validator |
| Topics.BrokerHostPortInvalid | server.go:131 | for example the bare `broker.emqx.io:1883` fails the validator |
| Binder.KeyInjective | weather.go:80-131 | the nine lookups read nine different JSON keys |
| Binder.StepAt | weather.go:72-134 | the thirteen steps in source order: the device subscription is step 0 and only step 0, the JSON decoding step 1, the `rain_intensity` lookup the last |
| Binder.RunChain | weather.go:71-143 | the fail-fast chain: an abort names a step of the chain whose outcome failed with the reported error |
| Binder.RunChainReportsFirstFailure | weather.go:71-143 | the chain binds if and only if every step succeeds; otherwise it reports the first failing step together with that step's own error |
| Binder.MissingRainIntensityAborts | weather.go:131-134 | with every earlier step successful, a missing `rain_intensity` aborts at that last lookup with its error |
| Binder.SubscribeFailureAbortsFirst | weather.go:72-75 | the device subscription is the first step: its failure is the chain's error, and a bound chain has subscribed |
| Card.Received | server.go:115 | a receive releases one blocked sender of an open channel; a closed channel stays closed |
| Card.Prompted | server.go:128-177 | showing the prompt adds one open prompt and disables the card, nothing else |
| Card.TornDown | weather.go:146-163 | teardown leaves no client, no listener and "Connect" on the button; it unbinds the labels only if the client reported connected, hides the standby dialog only when asked, leaves `stop` and the channel alone, and keeps the invariant |
| Card.AfterWait | server.go:32-50 | a received cancel or a failed token sets `stop`; if `stop` is then set the session is torn down (standby hidden) and the prompt shown again; a successful token with `stop` clear changes nothing; the invariant is kept |
| Card.AfterConnectToken | server.go:61 | a successful connect token leaves the client connected and its subscriptions unchanged; nothing else changes |
| Card.NewSession | server.go:149-171 | a confirmed prompt gives an open channel, `stop` clear, a new unconnected client without subscriptions, the standby dialog shown and a connecting goroutine for the address; labels, button and overlay are untouched; the invariant holds |
| Card.Discovered | server.go:78-122 | the matched branch of the discovery handler as a function of the card: the wildcard is dropped, the device topic added if the first step succeeded, then either all labels bound with the listener and watcher attached, or a teardown and a new prompt; DiscoveredOutcome states what it leaves behind |
| Card.DiscoveredOutcome | server.go:78-122 | after a match (the wildcard still subscribed): a successful bind leaves all six labels bound, the listener and watcher running, and the client subscribed to the device topic and no longer to the wildcard; a failed bind leaves no client and no listener, "Connect", the standby dialog hidden and one more prompt, and starts no watcher |
| Card.WeatherCard.constructor | weather.go:31-47 | a new card has placeholder labels (none bound), "Connect", the disabled overlay, no client and a nil channel |
| Card.WeatherCard.Enable | weather.go:61-64 | sets the overlay to the enable colour and nothing else |
| Card.WeatherCard.Disable | weather.go:66-69 | sets the overlay to the disable colour and nothing else |
| Card.WeatherCard.ShowConnectionPrompt | server.go:128-177 | the new state is Prompted of the old one |
| Card.WeatherCard.StopMqtt | weather.go:146-163 | requires a client (the source dereferences it); the new state is TornDown of the old one |
| Card.WeatherCard.StopAndPrompt | server.go:43-47 | teardown followed by a new prompt |
| Card.WeatherCard.FormAnswered | server.go:149-171 | a declined prompt only closes the prompt; a confirmed one (its address passes the validator) starts NewSession |
| Card.WeatherCard.StartConnect | server.go:52-61 | installs the dialog-closed hook before the connect wait |
| Card.WeatherCard.DialogClosed | server.go:54-58 | the hook runs as the standby dialog closes, so the dialog is off screen; it sends on the channel (one more blocked sender) only when `stop` is clear |
| Card.WeatherCard.WaitCancelOrStepSuccess | server.go:32-50 | returns true on every path; the new state is AfterWait of the old one |
| Card.WeatherCard.WaitConnect | server.go:60-63 | the connect wait always lets the goroutine go on to subscribe, also after a cancel or failed connect |
| Card.WeatherCard.WaitConnectChecked | server.go:60-63 | corrected wait: the goroutine goes on if and only if `stop` is clear, so a cancel or a failed connect ends it |
| Card.WeatherCard.SubscribeDiscovery | server.go:65-72 | saves the broker preference and subscribes the current client to the discovery wildcard; requires a client |
| Card.WeatherCard.WaitSubscribe | server.go:124-125 | the subscribe wait has AfterWait's effect, then the goroutine returns |
| Card.WeatherCard.ConnectWeather2Mqtt | weather.go:71-144 | the result is the first-failure fold over the thirteen steps; the device topic is subscribed when the first step succeeds; the six labels are bound only on success |
| Card.WeatherCard.DiscoveryMessage | server.go:72-76 | a topic without a match changes nothing; a match leads to Discovered with the captured serial |
| Card.WeatherCard.BindDiscovered | server.go:78-122 | unsubscribes the wildcard before binding; the new state is Discovered of the old one |
| Card.WeatherCard.DataChanged | server.go:95-109 | an empty update changes nothing; the first data finds the channel open with no blocked sender (proved from the invariant, so it is closed at most once), removes the listener, sets `stop`, closes the channel, enables the card, shows "Disconnect" and hides the standby dialog |
| Card.WeatherCard.WatcherWakes | server.go:114-122 | once the receive completes, the watcher tears down (without hiding the standby dialog itself) and prompts only if `stop` is clear |
| Card.WeatherCard.ActionPressed | weather.go:38-44 | tears down only when a client exists, then always prompts |
| Card.WeatherCard.ConnectionChanged | server.go:163 | the client's own connection state changes (automatic reconnection); nothing else does |
| Scenarios.ConnectingCard | server.go:149-171 | prompting, then confirming the placeholder address, leads to the connect wait with a fresh unconnected client |
| Scenarios.SubscribedCard | server.go:60-72 | a successful connect leads to the subscribe wait with the wildcard subscribed and the broker saved |
| Scenarios.FailedConnectReachesSubscribe | server.go:37-72 | a failed connect tears down and prompts, yet the goroutine reaches Subscribe with no client |
| Scenarios.CancelledConnectReachesSubscribe | server.go:54-72 | closing the standby dialog during the connect does the same |
| Scenarios.FailedConnectStopsWhenChecked | server.go:49-63 | with the corrected wait a failed connect ends the goroutine with one prompt on screen |
| Scenarios.FailedBindThenCancel | server.go:84-90 | after a failed bind `stop` is still clear, so when the standby dialog's closed hook runs it sends, and the pending subscribe wait becomes able to receive the cancel and call stopMqtt on the nil client |
| Scenarios.BoundCard | server.go:72-122 | the station's announcement with every step successful binds all six labels to its telemetry topic |
| Scenarios.ConnectedCard | server.go:95-122 | the first data makes the card live ("Disconnect", enabled, standby hidden, channel closed) and the watcher then leaves it alone |
| Scenarios.DisconnectLiveCard | weather.go:38-44 | "Disconnect" on a live card unbinds the labels, drops the client and prompts |

## Left out

- Real scheduling and blocking. Goroutines are events called one at a time. A blocked receive is a precondition that a sender is blocked or the channel is closed.
- Card.WeatherCard.FormAnswered: requires the previous connecting goroutine to have returned. The model never runs two attempts' goroutines side by side. In the source a prompt can be answered while an old goroutine is still waiting, and that goroutine then acts on the new client.
- Card.WeatherCard.FormAnswered: the previous session's hook, readiness listener and watcher are dropped with its client. They are not kept running against the new session.
- Card.WeatherCard.DiscoveryMessage: requires the wildcard subscription to be active. A second matching message already in flight when the handler unsubscribes is not modelled. The source has no guard against it.
- Whether hiding the standby dialog runs its closed hook is toolkit behaviour. DialogClosed is an event the environment may call whenever the hook is installed.
- Token internals, the connect and subscribe protocol, JSON and MQTT decoding: each becomes an outcome chosen by the environment (`WaitEvent`, the per-step `Outcome`, the `empty` flag of DataChanged).
- The measurement values and their `%.2f` / `%.1f%%` formatting (floating point). The model records only which labels are bound.
- Card.TornDown: clears the readiness listener, although stopMqtt (weather.go:146-163) leaves it registered on the device's JSON binding; only the listener removes itself (server.go:100). The model assumes that no update reaches the listener once its client is disconnected. An update the binding queued before the disconnect, which would then close the channel of a torn-down session, is not modelled.
- The wildcard unsubscription inside stopMqtt is not visible. The subscriptions leave with the dropped client in any case.
- Widgets, layout, the progress bar and the standby dialog's texts (server.go:19-30, 69, 81), the prompt's user and password fields, the client options and uuid client id (server.go:154-163), and reading the stored broker into the form (server.go:133-135).
- `main.go` and `theme.go`: window wiring and resources.
- The vendored toolkit code under `vendor/`.

## Findings

| source | as written | input that shows it | evidently intended | confidence | as-written member | corrected member |
|---|---|---|---|---|---|---|
| server.go:49 | `waitCancelOrStepSuccess` returns true on every path, so the early return at server.go:61-63 never fires | the connect token finishes with an error (or the user closes the standby dialog): the wait clears the client and prompts, then server.go:72 calls Subscribe on the nil client | return `!card.stop`, so a cancelled or failed connect ends `asynchronousConnect` | high; not executed | Scenarios.FailedConnectReachesSubscribe | Card.WeatherCard.WaitConnectChecked |
