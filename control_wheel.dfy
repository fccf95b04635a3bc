/**
 * The debounced "control wheel" of driver_input_reader/inputs.py: a pair of
 * momentary buttons read as one tri-state event (Up, Down or Idle), where a
 * fired event suppresses further events until `timeout` seconds have passed.
 *
 * The clock and the optional button box are parameters of every poll: `now`
 * is the value `time.time()` would return, and the box is `None` when no
 * button box is connected or `Some(held)` with the indices of the buttons
 * currently held down.
 */
module ControlWheels {
  import opened Wrappers

  /** The event a poll reports (ControlWheel.State). */
  datatype State = Idle | Up | Down

  /** The current state of the optional button box. */
  type ButtonBox = Option<set<nat>>

  /** Button `b` is bound, the box is connected, and the box reports it held. */
  predicate Held(box: ButtonBox, b: Option<nat>)
  {
    b.Some? && box.Some? && b.value in box.value
  }

  const DefaultTimeout: real := 0.1
  const DefaultChangeAmount: real := 5.0

  /** The constructor arguments of a wheel; an unbound button is `None`. */
  datatype Config = Config(buttonUp: Option<nat>, buttonDown: Option<nat>, timeout: real, changeAmount: real)

  /** What one poll reports, and the wheel's `last_timestamp` afterwards. */
  datatype Poll = Poll(state: State, last: real)

  /**
   * One poll of a wheel whose last fire was at `last`. An absent button box
   * counts as "nothing held" (see StepAsWritten for the source's behaviour).
   */
  function Step(c: Config, last: real, now: real, box: ButtonBox): (p: Poll)
    // the debounce: inside the window nothing fires and nothing changes
    ensures now - last <= c.timeout ==> p == Poll(Idle, last)
    // a fire records the time of the poll; Idle leaves the state alone
    ensures p.state != Idle ==> p.last == now
    ensures p.state == Idle ==> p.last == last
    // Up is checked before Down
    ensures p.state == Up <==> now - last > c.timeout && Held(box, c.buttonUp)
    ensures p.state == Down <==> now - last > c.timeout && !Held(box, c.buttonUp) && Held(box, c.buttonDown)
  {
    if now - last > c.timeout then
      if Held(box, c.buttonUp) then Poll(Up, now)
      else if Held(box, c.buttonDown) then Poll(Down, now)
      else Poll(Idle, last)
    else
      Poll(Idle, last)
  }

  /** Both buttons bound and held after the window: Up wins, never Down. */
  lemma UpBeforeDown(c: Config, last: real, now: real, held: set<nat>)
    requires c.buttonUp.Some? && c.buttonDown.Some?
    requires c.buttonUp.value in held && c.buttonDown.value in held
    requires now - last > c.timeout
    ensures Step(c, last, now, Some(held)) == Poll(Up, now)
  {
  }

  /** One poll in a sequence of polls. */
  datatype Sample = Sample(now: real, box: ButtonBox)

  /** The events reported by successive polls starting from `last`. */
  function Run(c: Config, last: real, samples: seq<Sample>): (r: seq<State>)
    ensures |r| == |samples|
    decreases |samples|
  {
    if samples == [] then []
    else
      var p := Step(c, last, samples[0].now, samples[0].box);
      [p.state] + Run(c, p.last, samples[1..])
  }

  /** The wheel's `last_timestamp` after the polls. */
  function FinalTimestamp(c: Config, last: real, samples: seq<Sample>): real
    decreases |samples|
  {
    if samples == [] then last
    else
      var p := Step(c, last, samples[0].now, samples[0].box);
      FinalTimestamp(c, p.last, samples[1..])
  }

  /** The times of the polls that fired (reported Up or Down), in order. */
  function FireTimes(c: Config, last: real, samples: seq<Sample>): seq<real>
    decreases |samples|
  {
    if samples == [] then []
    else
      var p := Step(c, last, samples[0].now, samples[0].box);
      (if p.state == Idle then [] else [samples[0].now]) + FireTimes(c, p.last, samples[1..])
  }

  /**
   * Debounce over any sequence of polls: the first fire is more than
   * `timeout` after the starting timestamp, and any two consecutive fires
   * are more than `timeout` apart. No ordering of the poll times is needed.
   */
  lemma {:induction false} FiresAreSpaced(c: Config, last: real, samples: seq<Sample>)
    ensures var t := FireTimes(c, last, samples);
      (|t| > 0 ==> t[0] - last > c.timeout) &&
      (forall i :: 0 < i < |t| ==> t[i] - t[i - 1] > c.timeout)
    decreases |samples|
  {
    if samples != [] {
      var p := Step(c, last, samples[0].now, samples[0].box);
      FiresAreSpaced(c, p.last, samples[1..]);
      var rest := FireTimes(c, p.last, samples[1..]);
      if p.state != Idle {
        var t := [samples[0].now] + rest;
        assert FireTimes(c, last, samples) == t;
        forall i | 0 < i < |t| ensures t[i] - t[i - 1] > c.timeout {
          if i > 1 { assert t[i] == rest[i - 1] && t[i - 1] == rest[i - 2]; }
        }
      } else {
        assert FireTimes(c, last, samples) == rest;
      }
    }
  }

  /** The final timestamp is the last fire, or the starting one when nothing fired. */
  lemma {:induction false} FinalTimestampIsLastFire(c: Config, last: real, samples: seq<Sample>)
    ensures var t := FireTimes(c, last, samples);
      FinalTimestamp(c, last, samples) == if t == [] then last else t[|t| - 1]
    decreases |samples|
  {
    if samples != [] {
      var p := Step(c, last, samples[0].now, samples[0].box);
      FinalTimestampIsLastFire(c, p.last, samples[1..]);
    }
  }

  /** Every fire happens at the time of some poll, so never after the latest poll. */
  lemma {:induction false} FireTimesBounded(c: Config, last: real, samples: seq<Sample>, until: real)
    requires forall j :: 0 <= j < |samples| ==> samples[j].now <= until
    ensures forall i :: 0 <= i < |FireTimes(c, last, samples)| ==> FireTimes(c, last, samples)[i] <= until
    decreases |samples|
  {
    if samples != [] {
      var p := Step(c, last, samples[0].now, samples[0].box);
      FireTimesBounded(c, p.last, samples[1..], until);
      var t := FireTimes(c, last, samples);
      var rest := FireTimes(c, p.last, samples[1..]);
      assert forall i :: 0 <= i < |rest| ==> rest[i] <= until;
      if p.state != Idle {
        assert t == [samples[0].now] + rest;
        forall i | 0 < i < |t| ensures t[i] <= until { assert t[i] == rest[i - 1]; }
      } else {
        assert t == rest;
      }
    }
  }

  /** With spaced fires, the k-th fire (from 0) is more than (k+1) timeouts after `last`. */
  lemma {:induction false} SpacedFiresAccumulate(last: real, timeout: real, t: seq<real>, k: nat)
    requires |t| > 0 ==> t[0] - last > timeout
    requires forall i :: 0 < i < |t| ==> t[i] - t[i - 1] > timeout
    requires k < |t|
    ensures t[k] - last > (k + 1) as real * timeout
  {
    if k > 0 {
      SpacedFiresAccumulate(last, timeout, t, k - 1);
      assert t[k] - t[k - 1] > timeout;
    }
  }

  /**
   * A held button fires at most once per window: when every poll happens
   * no later than `until`, the number of fires times the timeout is less
   * than the time elapsed since the starting timestamp.
   */
  lemma FireCountBound(c: Config, last: real, samples: seq<Sample>, until: real)
    requires forall j :: 0 <= j < |samples| ==> samples[j].now <= until
    ensures var n := |FireTimes(c, last, samples)|;
      n > 0 ==> (n as real) * c.timeout < until - last
  {
    var t := FireTimes(c, last, samples);
    if |t| > 0 {
      FiresAreSpaced(c, last, samples);
      FireTimesBounded(c, last, samples, until);
      SpacedFiresAccumulate(last, c.timeout, t, |t| - 1);
    }
  }

  /** A wheel with neither button bound always reports Idle and keeps its timestamp. */
  lemma {:induction false} UnboundWheelIsInert(c: Config, last: real, samples: seq<Sample>)
    requires c.buttonUp.None? && c.buttonDown.None?
    ensures forall i :: 0 <= i < |samples| ==> Run(c, last, samples)[i] == Idle
    ensures FinalTimestamp(c, last, samples) == last
    decreases |samples|
  {
    if samples != [] {
      UnboundWheelIsInert(c, last, samples[1..]);
      var r := Run(c, last, samples);
      forall i | 0 < i < |samples| ensures r[i] == Idle {
        assert r[i] == Run(c, last, samples[1..])[i - 1];
      }
    }
  }

  /** A wheel with no down button never reports Down, whatever the polls. */
  lemma {:induction false} UpOnlyWheelNeverGoesDown(c: Config, last: real, samples: seq<Sample>)
    requires c.buttonDown.None?
    ensures forall i :: 0 <= i < |samples| ==> Run(c, last, samples)[i] != Down
    decreases |samples|
  {
    if samples != [] {
      var p := Step(c, last, samples[0].now, samples[0].box);
      UpOnlyWheelNeverGoesDown(c, p.last, samples[1..]);
      var r := Run(c, last, samples);
      forall i | 0 < i < |samples| ensures r[i] != Down {
        assert r[i] == Run(c, p.last, samples[1..])[i - 1];
      }
    }
  }

  /** How the source's poll fails: `get_button` called on a missing button box. */
  datatype Fault = MissingButtonBox

  /**
   * The poll exactly as inputs.py writes it. The `is not None` guards cover
   * the button indices only, so with no button box connected a bound button
   * is looked up on `None`, which raises, once the window has passed.
   */
  function StepAsWritten(c: Config, last: real, now: real, box: ButtonBox): (r: Result<Poll, Fault>)
    ensures box.Some? ==> r == Success(Step(c, last, now, box))
    ensures box.None? ==> (r.Failure? <==> now - last > c.timeout && (c.buttonUp.Some? || c.buttonDown.Some?))
    ensures box.None? && r.Success? ==> r.value == Poll(Idle, last)
  {
    if now - last <= c.timeout then Success(Poll(Idle, last))
    else if c.buttonUp.Some? && box.None? then Failure(MissingButtonBox)
    else if Held(box, c.buttonUp) then Success(Poll(Up, now))
    else if c.buttonDown.Some? && box.None? then Failure(MissingButtonBox)
    else if Held(box, c.buttonDown) then Success(Poll(Down, now))
    else Success(Poll(Idle, last))
  }

  /** The throttle wheel (buttons 5 and 4) polled on its first call with no button box: the source raises. */
  lemma AsWrittenFailsOnFirstPollWithoutBox()
    ensures StepAsWritten(Config(Some(5), Some(4), DefaultTimeout, DefaultChangeAmount), 0.0, 1.0, None)
      == Failure(MissingButtonBox)
  {
  }

  /** The intended behaviour: with no button box every wheel is permanently Idle. */
  lemma {:induction false} MissingBoxNeverFires(c: Config, last: real, samples: seq<Sample>)
    requires forall j :: 0 <= j < |samples| ==> samples[j].box.None?
    ensures forall i :: 0 <= i < |samples| ==> Run(c, last, samples)[i] == Idle
    ensures FinalTimestamp(c, last, samples) == last
    decreases |samples|
  {
    if samples != [] {
      MissingBoxNeverFires(c, last, samples[1..]);
      var r := Run(c, last, samples);
      forall i | 0 < i < |samples| ensures r[i] == Idle {
        assert r[i] == Run(c, last, samples[1..])[i - 1];
      }
    }
  }

  /** A control wheel; only `lastTimestamp` changes after construction. */
  class ControlWheel {
    const buttonUp: Option<nat>
    const buttonDown: Option<nat>
    const timeout: real
    const changeAmount: real
    var lastTimestamp: real

    /** The wheel's constructor arguments. */
    function Settings(): Config
    {
      Config(buttonUp, buttonDown, timeout, changeAmount)
    }

    constructor (buttonUp: Option<nat>, buttonDown: Option<nat>,
                 timeout: real := DefaultTimeout, changeAmount: real := DefaultChangeAmount)
      ensures Settings() == Config(buttonUp, buttonDown, timeout, changeAmount)
      ensures lastTimestamp == 0.0
    {
      this.buttonUp := buttonUp;
      this.buttonDown := buttonDown;
      this.timeout := timeout;
      this.changeAmount := changeAmount;
      this.lastTimestamp := 0.0;
    }

    /** Polls the wheel at time `now`; updates `lastTimestamp` only when it fires. */
    method GetState(now: real, box: ButtonBox) returns (s: State)
      modifies this
      ensures Poll(s, lastTimestamp) == Step(Settings(), old(lastTimestamp), now, box)
    {
      if now - lastTimestamp > timeout {
        if Held(box, buttonUp) {
          lastTimestamp := now;
          return Up;
        } else if Held(box, buttonDown) {
          lastTimestamp := now;
          return Down;
        }
      }
      return Idle;
    }

    /** The step the wheel's user adds or subtracts per event. */
    method GetChangeAmount() returns (a: real)
      ensures a == changeAmount
    {
      a := changeAmount;
    }
  }
}
