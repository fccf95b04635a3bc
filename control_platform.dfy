/**
 * The publishing side of driver_input_reader/control_platform.py: the
 * signed step read from a control wheel, the derived platform signals (seat
 * tilt, seat pivot, vibration), the `topic json` message framing, the
 * default configuration, and the `platform_info` payload that the
 * DriverInputReader keeps and publishes.
 *
 * Real arithmetic stands for Python floats; values are those before
 * `round(..., 2)`. The JSON text of a payload is abstract: it is whatever
 * the serialiser passed in as `dumps` makes of the payload.
 */
module ControlPlatform {
  import opened Wrappers
  import opened ControlWheels
  import opened Inputs

  // ---------------------------------------------------------------------
  // Control wheel steps
  // ---------------------------------------------------------------------

  /** The signed step for one wheel event: +amount, -amount or 0. */
  function SignedChange(s: State, amount: real): (d: real)
    ensures s == Up ==> d == amount
    ensures s == Down ==> d == -amount
    ensures s == Idle ==> d == 0.0
  {
    match s
    case Up => amount
    case Down => -amount
    case Idle => 0.0
  }

  /** Reads the step, then polls the wheel, and returns the signed step for the event. */
  method ChangeAmountFromWheel(wheel: ControlWheel, now: real, box: ButtonBox) returns (d: real)
    modifies wheel
    ensures var p := Step(wheel.Settings(), old(wheel.lastTimestamp), now, box);
      d == SignedChange(p.state, wheel.changeAmount) && wheel.lastTimestamp == p.last
  {
    var amount := wheel.GetChangeAmount();
    var state := wheel.GetState(now, box);
    if state == Up {
      d := amount;
    } else if state == Down {
      d := -amount;
    } else {
      d := 0.0;
    }
  }

  /** The sum of the signed steps a caller collects over successive polls. */
  function NetChange(c: Config, last: real, samples: seq<Sample>): real
    decreases |samples|
  {
    if samples == [] then 0.0
    else
      var p := Step(c, last, samples[0].now, samples[0].box);
      SignedChange(p.state, c.changeAmount) + NetChange(c, p.last, samples[1..])
  }

  function Magnitude(x: real): real
  {
    if x < 0.0 then -x else x
  }

  /** `n` steps of size `a`, summed. */
  function Steps(a: real, n: nat): real
  {
    if n == 0 then 0.0 else a + Steps(a, n - 1)
  }

  lemma {:induction false} StepsIsProduct(a: real, n: nat)
    ensures Steps(a, n) == a * n as real
  {
    if n > 0 {
      StepsIsProduct(a, n - 1);
      assert a * n as real == a * (n - 1) as real + a;
    }
  }

  /** Over any polls the collected change is at most one step per fire, in either direction. */
  lemma {:induction false} NetChangeBounded(c: Config, last: real, samples: seq<Sample>)
    ensures var bound := Magnitude(c.changeAmount) * |FireTimes(c, last, samples)| as real;
      -bound <= NetChange(c, last, samples) <= bound
  {
    NetChangeWithinSteps(c, last, samples);
    StepsIsProduct(Magnitude(c.changeAmount), |FireTimes(c, last, samples)|);
  }

  /** NetChangeBounded with the bound summed fire by fire, as the induction builds it. */
  lemma {:induction false} NetChangeWithinSteps(c: Config, last: real, samples: seq<Sample>)
    ensures var bound := Steps(Magnitude(c.changeAmount), |FireTimes(c, last, samples)|);
      -bound <= NetChange(c, last, samples) <= bound
    decreases |samples|
  {
    if samples != [] {
      var p := Step(c, last, samples[0].now, samples[0].box);
      var tail := samples[1..];
      NetChangeWithinSteps(c, p.last, tail);
      assert NetChange(c, last, samples) == SignedChange(p.state, c.changeAmount) + NetChange(c, p.last, tail);
      if p.state == Idle {
        assert FireTimes(c, last, samples) == FireTimes(c, p.last, tail);
      } else {
        assert FireTimes(c, last, samples) == [samples[0].now] + FireTimes(c, p.last, tail);
      }
    }
  }

  // ---------------------------------------------------------------------
  // Derived platform signals
  // ---------------------------------------------------------------------

  /** The velocity proxy of the seat tilt: throttle when it is at least the brake, else the negated brake. */
  function TiltVelocity(throttle: real, brake: real): (v: real)
    ensures throttle >= brake ==> v == throttle
    ensures throttle < brake ==> v == -brake
    ensures 0.0 <= throttle && 0.0 <= brake ==>
      (v >= 0.0 <==> throttle >= brake) && Magnitude(v) == (if throttle >= brake then throttle else brake)
  {
    if throttle >= brake then throttle
    else if throttle <= brake then -brake
    else 10.0  // unreachable: the two tests above are complementary
  }

  /**
   * The lateral acceleration `velocity^2 / R` of the seat tilt, with the
   * turn radius R taken as `steering / 10`. The source divides without a
   * guard; steering 0 is excluded here and raises in HandlePlatformInputs.
   */
  function LateralAcceleration(throttle: real, brake: real, steering: real): (a: real)
    requires steering != 0.0
    ensures a * (steering / 10.0) == TiltVelocity(throttle, brake) * TiltVelocity(throttle, brake)
    ensures TiltVelocity(throttle, brake) == 0.0 ==> a == 0.0
  {
    var v := TiltVelocity(throttle, brake);
    v * v / (steering / 10.0)
  }

  /** Steering the other way mirrors the lateral acceleration. */
  lemma LateralAccelerationMirrors(throttle: real, brake: real, steering: real)
    requires steering != 0.0
    ensures LateralAcceleration(throttle, brake, -steering) == -LateralAcceleration(throttle, brake, steering)
  {
  }

  /** Forward lean: the negated throttle when it exceeds the brake, else the brake. */
  function SeatPivot(throttle: real, brake: real): (r: real)
    // the (0, 0) case of the source needs no branch of its own
    ensures r == if throttle > brake then -throttle else brake
    ensures 0.0 <= throttle <= 100.0 && 0.0 <= brake <= 100.0 ==> -100.0 <= r <= 100.0
    ensures 0.0 <= brake ==> (r < 0.0 <==> throttle > brake)
  {
    var pivot := if brake == 0.0 && throttle == 0.0 then 0.0
                 else if throttle > brake then throttle
                 else -brake;
    -pivot
  }

  const IdleRpm: real := 680.0
  const RpmRange: real := 6320.0

  /** The vibration (engine speed proxy): 680 plus 63.2 per percent of the driving pedal, brake weighted 0.75. */
  function Rpm(throttle: real, brake: real): (r: real)
    ensures throttle >= brake ==> r == 680.0 + 63.2 * throttle
    ensures throttle < brake ==> r == 680.0 + 47.4 * brake
    ensures 0.0 <= throttle <= 100.0 && 0.0 <= brake <= 100.0 ==> IdleRpm <= r <= IdleRpm + RpmRange
  {
    var velocity := if throttle >= brake then throttle
                    else if brake >= throttle then brake * 0.75
                    else 0.0;  // unreachable: the two tests above are complementary
    IdleRpm + RpmRange * velocity / 100.0
  }

  /** More throttle never lowers the vibration while the brake is not negative. */
  lemma RpmMonotoneInThrottle(t1: real, t2: real, brake: real)
    requires t1 <= t2 && 0.0 <= brake
    ensures Rpm(t1, brake) <= Rpm(t2, brake)
  {
  }

  /** The worked values of the derived signals. */
  lemma SignalExamples()
    ensures SeatPivot(0.0, 0.0) == 0.0 && SeatPivot(50.0, 20.0) == -50.0 && SeatPivot(20.0, 50.0) == 50.0
    ensures Rpm(0.0, 0.0) == 680.0 && Rpm(100.0, 0.0) == 7000.0 && Rpm(0.0, 100.0) == 5420.0
    ensures LateralAcceleration(50.0, 0.0, 10.0) == 2500.0
  {
  }

  // ---------------------------------------------------------------------
  // Message framing
  // ---------------------------------------------------------------------

  /** The published message: the topic, one space, the JSON text. */
  function Message(topic: string, json: string): (m: string)
    ensures |m| == |topic| + 1 + |json|
    ensures m[..|topic|] == topic && m[|topic|] == ' ' && m[|topic| + 1..] == json
  {
    topic + " " + json
  }

  /** `send_data`: the message for a payload under a topic; the topic defaults to a single space. */
  function SendData(payload: map<string, real>, dumps: map<string, real> -> string, topic: string := " "): (m: string)
    ensures m == Message(topic, dumps(payload))
    ensures m[..|topic|] == topic && m[|topic|] == ' '
  {
    var json := dumps(payload);
    Message(topic, json)
  }

  /** A subscriber's reading of a message: the text before the first space, and the rest. */
  function SplitTopic(m: string): (r: Option<(string, string)>)
    ensures r.None? <==> ' ' !in m
    decreases |m|
  {
    if m == [] then None
    else if m[0] == ' ' then Some(([], m[1..]))
    else
      match SplitTopic(m[1..])
      case None => None
      case Some(tj) => Some(([m[0]] + tj.0, tj.1))
  }

  /** A topic without spaces is recovered, together with the JSON text, from its message. */
  lemma {:induction false} SplitMessage(topic: string, json: string)
    requires ' ' !in topic
    ensures SplitTopic(Message(topic, json)) == Some((topic, json))
    decreases |topic|
  {
    if topic != [] {
      SplitMessage(topic[1..], json);
      assert Message(topic, json)[1..] == Message(topic[1..], json);
      assert [topic[0]] + topic[1..] == topic;
    }
  }

  // ---------------------------------------------------------------------
  // Configuration
  // ---------------------------------------------------------------------

  /** The part of JSON the configuration uses: strings and objects. */
  datatype Json = Str(text: string) | Obj(members: map<string, Json>)

  /** Follows a path of object keys; None when a key is missing or a string is reached early. */
  function Lookup(j: Json, path: seq<string>): (r: Option<Json>)
    ensures path == [] ==> r == Some(j)
    decreases |path|
  {
    if path == [] then Some(j)
    else
      match j
      case Obj(m) => if path[0] in m then Lookup(m[path[0]], path[1..]) else None
      case Str(_) => None
  }

  const AddressPath: seq<string> := ["pynng", "publishers", "publisher", "address"]
  const TopicPath: seq<string> := ["pynng", "publishers", "publisher", "topics", "driver_input"]
  const SubscribersPath: seq<string> := ["pynng", "subscribers"]

  const DefaultAddress: string := "ipc:///tmp/RAAI/driver_input_reader.ipc"
  const DefaultTopic: string := "driver_input"

  /** The configuration written when none exists. */
  function Template(): Json
  {
    Obj(map[
      "pynng" := Obj(map[
        "publishers" := Obj(map[
          "publisher" := Obj(map[
            "address" := Str(DefaultAddress),
            "topics" := Obj(map["driver_input" := Str(DefaultTopic)])
          ])
        ]),
        "subscribers" := Obj(map[])
      ])
    ])
  }

  /** The topic the reader publishes under, when the configuration names one. */
  function ConfigTopic(config: Json): (r: Option<string>)
    ensures r.Some? <==> Lookup(config, TopicPath).Some? && Lookup(config, TopicPath).value.Str?
    ensures r.Some? ==> Lookup(config, TopicPath) == Some(Str(r.value))
  {
    match Lookup(config, TopicPath)
    case Some(Str(t)) => Some(t)
    case _ => None
  }

  /** The template has every key the reader looks up: the publisher address, the topic, the subscribers. */
  lemma TemplateProvidesPublisher()
    ensures Lookup(Template(), AddressPath) == Some(Str(DefaultAddress))
    ensures ConfigTopic(Template()) == Some(DefaultTopic)
    ensures Lookup(Template(), SubscribersPath) == Some(Obj(map[]))
  {
  }

  // ---------------------------------------------------------------------
  // The platform_info payload
  // ---------------------------------------------------------------------

  const ThrottleKey: string := "throttle"
  const BrakeKey: string := "brake"
  const ClutchKey: string := "clutch"
  const SteeringKey: string := "steering"
  const TiltXKey: string := "tilt_x"
  const TiltYKey: string := "tilt_y"
  const VibrationKey: string := "vibration"

  const DriverKeys: set<string> := {ThrottleKey, BrakeKey, ClutchKey, SteeringKey}
  const SignalKeys: set<string> := {TiltXKey, TiltYKey, VibrationKey}
  const PayloadKeys: set<string> := DriverKeys + SignalKeys

  const InitialPlatformInfo: map<string, real> := map[
    ThrottleKey := 0.0, BrakeKey := 0.0, ClutchKey := 0.0, SteeringKey := 0.0,
    TiltXKey := 0.0, TiltYKey := 0.0, VibrationKey := 0.0]

  /** The platform signals hold their initial value 0. */
  predicate SignalsAtRest(info: map<string, real>)
  {
    forall k :: k in SignalKeys ==> k in info && info[k] == 0.0
  }

  lemma InitialPayload()
    ensures InitialPlatformInfo.Keys == PayloadKeys
    ensures SignalsAtRest(InitialPlatformInfo)
  {
  }

  /** The payload after one driver reading: the four percents replaced, every other key kept. */
  function DriverUpdate(info: map<string, real>, raw: RawAxes): (r: map<string, real>)
    ensures r.Keys == info.Keys + DriverKeys
    ensures r[ThrottleKey] == ThrottlePercent(raw.throttle) && r[BrakeKey] == BrakePercent(raw.brake)
    ensures r[ClutchKey] == ClutchPercent(raw.clutch) && r[SteeringKey] == SteeringPercent(raw.steering)
    ensures forall k :: k in info && k !in DriverKeys ==> r[k] == info[k]
  {
    info[ThrottleKey := ThrottlePercent(raw.throttle)]
        [BrakeKey := BrakePercent(raw.brake)]
        [ClutchKey := ClutchPercent(raw.clutch)]
        [SteeringKey := SteeringPercent(raw.steering)]
  }

  /** A later reading completely replaces an earlier one. */
  lemma DriverUpdateOverwrites(info: map<string, real>, r1: RawAxes, r2: RawAxes)
    ensures DriverUpdate(DriverUpdate(info, r1), r2) == DriverUpdate(info, r2)
  {
    var a := DriverUpdate(DriverUpdate(info, r1), r2);
    var b := DriverUpdate(info, r2);
    assert a.Keys == b.Keys;
    forall k | k in a.Keys ensures a[k] == b[k] {
      if k !in DriverKeys {
        assert a[k] == info[k] == b[k];
      }
    }
  }

  /** The payload after one driver update per reading, in order. */
  function Sends(info: map<string, real>, raws: seq<RawAxes>): map<string, real>
    decreases |raws|
  {
    if raws == [] then info else Sends(DriverUpdate(info, raws[0]), raws[1..])
  }

  /**
   * With the platform-signal step disabled, any number of publish cycles
   * leave tilt_x, tilt_y and vibration as they were, keep the key set, and
   * publish exactly the latest reading.
   */
  lemma {:induction false} SendsKeepSignalsAtRest(info: map<string, real>, raws: seq<RawAxes>)
    requires info.Keys == PayloadKeys && SignalsAtRest(info)
    ensures Sends(info, raws).Keys == PayloadKeys
    ensures SignalsAtRest(Sends(info, raws))
    ensures raws != [] ==> Sends(info, raws) == DriverUpdate(info, raws[|raws| - 1])
    decreases |raws|
  {
    if raws != [] {
      var next := DriverUpdate(info, raws[0]);
      SendsKeepSignalsAtRest(next, raws[1..]);
      if |raws| > 1 {
        DriverUpdateOverwrites(info, raws[0], raws[|raws| - 1]);
      }
    }
  }

  /** The payload after the platform-signal step, which reads the current percents. */
  function PlatformUpdate(info: map<string, real>, tiltOf: real -> real): (r: map<string, real>)
    requires ThrottleKey in info && BrakeKey in info && SteeringKey in info
    requires info[SteeringKey] != 0.0
    ensures r.Keys == info.Keys + SignalKeys
    ensures r[TiltYKey] == SeatPivot(info[ThrottleKey], info[BrakeKey])
    ensures r[VibrationKey] == Rpm(info[ThrottleKey], info[BrakeKey])
    ensures r[TiltXKey] == tiltOf(LateralAcceleration(info[ThrottleKey], info[BrakeKey], info[SteeringKey]))
    ensures forall k :: k in info && k !in SignalKeys ==> r[k] == info[k]
  {
    var throttle, brake, steering := info[ThrottleKey], info[BrakeKey], info[SteeringKey];
    info[TiltXKey := tiltOf(LateralAcceleration(throttle, brake, steering))]
        [TiltYKey := SeatPivot(throttle, brake)]
        [VibrationKey := Rpm(throttle, brake)]
  }

  /**
   * The reader: its inputs, its configuration and the payload it publishes.
   * The publisher socket is not part of this model; a published message is
   * returned instead.
   */
  class DriverInputReader {
    const inputs: Inputs
    const config: Json
    var platformInfo: map<string, real>

    /** The payload always has exactly the seven keys. */
    ghost predicate Valid()
      reads this
    {
      platformInfo.Keys == PayloadKeys
    }

    /** `config` is the configuration read from file, or Template() when there is none. */
    constructor (config: Json)
      requires Lookup(config, AddressPath).Some? && Lookup(config, AddressPath).value.Str?
      ensures Valid() && SignalsAtRest(platformInfo)
      ensures this.config == config && platformInfo == InitialPlatformInfo
      ensures fresh(inputs) && inputs.Axes() == RawAxes(0.0, 0.0, 0.0, 0.0)
      ensures inputs.WheelsAtStart() && fresh(inputs.Wheels())
    {
      inputs := new Inputs();
      this.config := config;
      platformInfo := InitialPlatformInfo;
    }

    /** Reads the axes and stores their percents; tilt_x, tilt_y and vibration keep their values. */
    method HandleDriverInputs(raw: RawAxes)
      requires Valid()
      modifies this, inputs
      ensures Valid()
      ensures inputs.Axes() == raw
      ensures platformInfo == DriverUpdate(old(platformInfo), raw)
      ensures forall k :: k in SignalKeys ==> platformInfo[k] == old(platformInfo)[k]
    {
      inputs.ReadInputs(raw);
      platformInfo := platformInfo[ThrottleKey := ThrottlePercent(inputs.throttleAxis)];
      platformInfo := platformInfo[BrakeKey := BrakePercent(inputs.brakeAxis)];
      platformInfo := platformInfo[ClutchKey := ClutchPercent(inputs.clutchAxis)];
      platformInfo := platformInfo[SteeringKey := SteeringPercent(inputs.steeringAxis)];
    }

    /**
     * Computes tilt_x, tilt_y and vibration from the stored percents.
     * `tiltOf` stands for the angle-and-rounding tail of the tilt. With the
     * steering at 0 the source's division raises before anything is stored:
     * `ok` is false and the payload is unchanged.
     */
    method HandlePlatformInputs(tiltOf: real -> real) returns (ok: bool)
      requires Valid()
      modifies this
      ensures Valid()
      ensures ok == (old(platformInfo)[SteeringKey] != 0.0)
      ensures ok ==> platformInfo == PlatformUpdate(old(platformInfo), tiltOf)
      ensures !ok ==> platformInfo == old(platformInfo)
    {
      var throttle, brake, steering := platformInfo[ThrottleKey], platformInfo[BrakeKey], platformInfo[SteeringKey];
      if steering == 0.0 {
        return false;
      }
      platformInfo := platformInfo[TiltXKey := tiltOf(LateralAcceleration(throttle, brake, steering))];
      platformInfo := platformInfo[TiltYKey := SeatPivot(throttle, brake)];
      platformInfo := platformInfo[VibrationKey := Rpm(throttle, brake)];
      ok := true;
    }

    /**
     * One publish cycle: the driver update, then the message under the
     * configured topic. The platform-signal step is disabled. When the
     * configuration has no string topic the source raises after the update:
     * the result is None and the payload is already updated.
     */
    method SendPayload(raw: RawAxes, dumps: map<string, real> -> string) returns (msg: Option<string>)
      requires Valid()
      modifies this, inputs
      ensures Valid()
      ensures inputs.Axes() == raw
      ensures platformInfo == DriverUpdate(old(platformInfo), raw)
      ensures SignalsAtRest(old(platformInfo)) ==> SignalsAtRest(platformInfo)
      ensures ConfigTopic(config).Some? ==> msg == Some(Message(ConfigTopic(config).value, dumps(platformInfo)))
      ensures ConfigTopic(config).None? ==> msg.None?
    {
      HandleDriverInputs(raw);
      var topic := ConfigTopic(config);
      if topic.None? {
        return None;
      }
      msg := Some(SendData(platformInfo, dumps, topic.value));
    }
  }
}
