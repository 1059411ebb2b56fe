/**
 * The fail-fast setup of connectWeather2Mqtt: thirteen fallible steps run in a
 * fixed order (subscribe to the device topic, decode it as JSON, nine field
 * lookups and the two formatted labels built from them). The first failing
 * step's error is returned and nothing is bound; the labels are bound only
 * when every step succeeded. The payloads and the binding library are opaque,
 * so each step is given as an outcome chosen by the environment.
 */
module Binder {

  /** The payload fields read from the device's JSON. */
  datatype Field =
    | AirTemperature | FeelsLike | RelativeHumidity | PressureTrend
    | WindSpeed | WindGust | WindDirection | UvDescription | RainIntensity

  /** The JSON key each lookup step reads. */
  function Key(f: Field): string {
    match f
    case AirTemperature => "air_temperature"
    case FeelsLike => "feelslike"
    case RelativeHumidity => "relative_humidity"
    case PressureTrend => "pressure_trend"
    case WindSpeed => "wind_speed"
    case WindGust => "wind_gust"
    case WindDirection => "wind_direction"
    case UvDescription => "uv_description"
    case RainIntensity => "rain_intensity"
  }

  /** The nine lookups read nine different keys of the payload. */
  lemma KeyInjective(f: Field, g: Field)
    requires Key(f) == Key(g)
    ensures f == g
  {
  }

  datatype Step =
    | SubscribeTelemetry   // xbinding.NewMqttString on the device topic
    | DecodeJson           // xbinding.NewJSONFromString
    | Lookup(field: Field) // GetItemFloat / GetItemString
    | FormatTemperature    // binding.NewSprintf for the temperature label
    | FormatWind           // binding.NewSprintf for the wind label

  /** Step `i` of connectWeather2Mqtt, in source order (0 to 12). */
  function StepAt(i: nat): (s: Step)
    ensures s == SubscribeTelemetry <==> i == 0
    ensures s == DecodeJson <==> i == 1
    ensures s == Lookup(RainIntensity) <==> i >= 12
  {
    match i
    case 0 => SubscribeTelemetry
    case 1 => DecodeJson
    case 2 => Lookup(AirTemperature)
    case 3 => Lookup(FeelsLike)
    case 4 => FormatTemperature
    case 5 => Lookup(RelativeHumidity)
    case 6 => Lookup(PressureTrend)
    case 7 => Lookup(WindSpeed)
    case 8 => Lookup(WindGust)
    case 9 => Lookup(WindDirection)
    case 10 => FormatWind
    case 11 => Lookup(UvDescription)
    case _ => Lookup(RainIntensity)
  }

  /** The thirteen steps in source order. */
  const BindSteps: seq<Step> := seq(13, i requires 0 <= i => StepAt(i))

  datatype Outcome = Succeeded | Failed(err: string)

  datatype ChainResult = Bound | Aborted(at: Step, err: string)

  /** Step `k` is the first one whose outcome is a failure. */
  ghost predicate FirstFailureAt(steps: seq<Step>, outcome: Step -> Outcome, k: nat) {
    k < |steps| && outcome(steps[k]).Failed? &&
    forall j :: 0 <= j < k ==> outcome(steps[j]).Succeeded?
  }

  lemma FirstFailureUnique(steps: seq<Step>, outcome: Step -> Outcome, k: nat, l: nat)
    requires FirstFailureAt(steps, outcome, k) && FirstFailureAt(steps, outcome, l)
    ensures k == l
  {
  }

  /** Runs the steps in order and stops at the first failure. */
  function RunChain(steps: seq<Step>, outcome: Step -> Outcome): (r: ChainResult)
    ensures r.Aborted? ==> r.at in steps && outcome(r.at) == Failed(r.err)
  {
    if steps == [] then Bound
    else match outcome(steps[0])
      case Failed(e) => Aborted(steps[0], e)
      case Succeeded => RunChain(steps[1..], outcome)
  }

  /** The chain binds exactly when every step succeeds, and otherwise reports
      the first failing step together with that step's own error. */
  lemma {:induction false} RunChainReportsFirstFailure(steps: seq<Step>, outcome: Step -> Outcome)
    ensures RunChain(steps, outcome) == Bound <==>
      forall j :: 0 <= j < |steps| ==> outcome(steps[j]).Succeeded?
    ensures forall k: nat :: FirstFailureAt(steps, outcome, k) ==>
      RunChain(steps, outcome) == Aborted(steps[k], outcome(steps[k]).err)
    ensures RunChain(steps, outcome).Aborted? ==>
      exists k: nat :: FirstFailureAt(steps, outcome, k) && steps[k] == RunChain(steps, outcome).at
  {
    if steps != [] {
      RunChainReportsFirstFailure(steps[1..], outcome);
      var tail := steps[1..];
      match outcome(steps[0])
      case Failed(e) =>
        assert FirstFailureAt(steps, outcome, 0);
        forall k: nat | FirstFailureAt(steps, outcome, k) ensures k == 0 {
          FirstFailureUnique(steps, outcome, k, 0);
        }
      case Succeeded =>
        forall k: nat | FirstFailureAt(steps, outcome, k)
          ensures RunChain(steps, outcome) == Aborted(steps[k], outcome(steps[k]).err)
        {
          assert k > 0;
          assert FirstFailureAt(tail, outcome, k - 1) by {
            forall j | 0 <= j < k - 1 ensures outcome(tail[j]).Succeeded? {
              assert tail[j] == steps[j + 1];
            }
          }
        }
        if RunChain(steps, outcome).Aborted? {
          var k: nat :| FirstFailureAt(tail, outcome, k) && tail[k] == RunChain(tail, outcome).at;
          assert FirstFailureAt(steps, outcome, k + 1) by {
            forall j | 0 <= j < k + 1 ensures outcome(steps[j]).Succeeded? {
              if j > 0 {
                assert steps[j] == tail[j - 1];
              }
            }
          }
        }
        if forall j :: 0 <= j < |tail| ==> outcome(tail[j]).Succeeded? {
          forall j | 0 <= j < |steps| ensures outcome(steps[j]).Succeeded? {
            if j > 0 {
              assert steps[j] == tail[j - 1];
            }
          }
        }
    }
  }

  /** A payload lacking only `rain_intensity` aborts at that last lookup with its error. */
  lemma MissingRainIntensityAborts(outcome: Step -> Outcome, e: string)
    requires outcome(Lookup(RainIntensity)) == Failed(e)
    requires forall j :: 0 <= j < 12 ==> outcome(BindSteps[j]).Succeeded?
    ensures RunChain(BindSteps, outcome) == Aborted(Lookup(RainIntensity), e)
  {
    assert BindSteps[12] == StepAt(12) == Lookup(RainIntensity);
    assert FirstFailureAt(BindSteps, outcome, 12);
    RunChainReportsFirstFailure(BindSteps, outcome);
  }

  /** Subscribing to the device topic comes first: its failure is the chain's
      error, and a bound chain has subscribed. */
  lemma SubscribeFailureAbortsFirst(outcome: Step -> Outcome)
    ensures outcome(SubscribeTelemetry).Failed? ==>
      RunChain(BindSteps, outcome) == Aborted(SubscribeTelemetry, outcome(SubscribeTelemetry).err)
    ensures RunChain(BindSteps, outcome).Bound? ==> outcome(SubscribeTelemetry).Succeeded?
  {
    assert BindSteps[0] == SubscribeTelemetry;
  }
}
