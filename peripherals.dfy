/**
 * The Pico peripheral drivers, reduced to the state the registers read and
 * change and the operations the registers call. Each driver that the
 * registers act on keeps a ghost log of the calls made on it, so that a
 * register's contract can say which call it made and how many times.
 */
module Peripherals {
  import opened HarpTypes
  import opened Pins
  import opened PwmModel

  /** An array of digital input pins, read as one bitmask. */
  class DigitalInputArray {
    var state: bv8

    constructor (state: bv8)
      ensures this.state == state
    {
      this.state := state;
    }
  }

  /**
   * An array of digital output pins. The pins are always the power-up state
   * updated by the calls of the log.
   */
  class DigitalOutputArray {
    var state: bv8
    ghost var initial: bv8
    ghost var log: seq<OutputCall>

    ghost predicate Valid()
      reads this
    {
      state == Replay(initial, log)
    }

    constructor (state: bv8)
      ensures Valid() && this.state == state && log == []
    {
      this.state := state;
      initial := state;
      log := [];
    }

    /** `clear_state()`: every pin OFF. */
    method ClearAll()
      requires Valid()
      modifies this
      ensures Valid() && initial == old(initial)
      ensures state == 0 && log == old(log) + [ClearAllCall]
    {
      state := 0;
      log := log + [ClearAllCall];
    }

    /** `set_state(mask)`. */
    method SetState(mask: bv8)
      requires Valid()
      modifies this
      ensures Valid() && initial == old(initial)
      ensures state == SetPins(old(state), mask) && log == old(log) + [SetCall(mask)]
    {
      state := SetPins(state, mask);
      log := log + [SetCall(mask)];
    }

    /** `clear_state(mask)`. */
    method ClearState(mask: bv8)
      requires Valid()
      modifies this
      ensures Valid() && initial == old(initial)
      ensures state == ClearPins(old(state), mask) && log == old(log) + [ClearCall(mask)]
    {
      state := ClearPins(state, mask);
      log := log + [ClearCall(mask)];
    }

    /** `toggle_state(mask)`. */
    method ToggleState(mask: bv8)
      requires Valid()
      modifies this
      ensures Valid() && initial == old(initial)
      ensures state == TogglePins(old(state), mask) && log == old(log) + [ToggleCall(mask)]
    {
      state := TogglePins(state, mask);
      log := log + [ToggleCall(mask)];
    }
  }

  /** A pin that no logged call touches is still in its power-up state. */
  lemma {:induction false} UntouchedPinKeepsPowerUpState(o: DigitalOutputArray, i: nat)
    requires o.Valid() && i < 8
    requires forall k | 0 <= k < |o.log| :: !Touches(o.log[k], i)
    ensures PinOn(o.state, i) == PinOn(o.initial, i)
  {
    ReplayLeavesUntouchedPins(o.initial, o.log, i);
  }

  /**
   * Once a clear-all has been logged (as binding an output register does),
   * the pins are those reached from all-OFF by the later calls alone.
   */
  lemma {:induction false} StateSinceClearAll(o: DigitalOutputArray, before: seq<OutputCall>, after: seq<OutputCall>)
    requires o.Valid() && o.log == before + [ClearAllCall] + after
    ensures o.state == Replay(0, after)
  {
    ReplaySinceClearAll(o.initial, before, after);
  }

  /**
   * After the clear-all made when an output register is bound, a pin that no
   * later call touches is OFF.
   */
  lemma {:induction false} UntouchedPinOffSinceClearAll(o: DigitalOutputArray, before: seq<OutputCall>, after: seq<OutputCall>, i: nat)
    requires o.Valid() && o.log == before + [ClearAllCall] + after && i < 8
    requires forall k | 0 <= k < |after| :: !Touches(after[k], i)
    ensures !PinOn(o.state, i)
  {
    StateSinceClearAll(o, before, after);
    ReplayLeavesUntouchedPins(0, after, i);
  }

  /** An ADC channel; `sample` is the conversion it would report now. */
  class Adc {
    var sample: u16

    constructor (sample: u16)
      ensures this.sample == sample
    {
      this.sample := sample;
    }

    /** `read_u16()`: the current conversion, without changing the channel. */
    method ReadU16() returns (r: u16)
      ensures r == sample
    {
      r := sample;
    }
  }

  /** A call made on the ADC stream event. */
  datatype EventCall = EnableCall | DisableCall

  /** The event that streams ADC samples while enabled. */
  class StreamEvent {
    var enabled: bool
    ghost var log: seq<EventCall>

    /** An event in an arbitrary state; its own start-up value is not modelled. */
    constructor (enabled: bool)
      ensures this.enabled == enabled && log == []
    {
      this.enabled := enabled;
      log := [];
    }

    /** `enable()`. */
    method Enable()
      modifies this
      ensures enabled && log == old(log) + [EnableCall]
    {
      enabled := true;
      log := log + [EnableCall];
    }

    /** `disable()`. */
    method Disable()
      modifies this
      ensures !enabled && log == old(log) + [DisableCall]
    {
      enabled := false;
      log := log + [DisableCall];
    }
  }

  /** The device object whose `adc_event` the stream register gates. */
  class PicoAnalog {
    const adcEvent: StreamEvent

    constructor (adcEvent: StreamEvent)
      ensures this.adcEvent == adcEvent
    {
      this.adcEvent := adcEvent;
    }
  }

  /**
   * The PWM generator. The driver's class constants `MinFrequency` and
   * `MinDutyCycle` become the per-instance constant fields `minFrequency`
   * and `minDutyCycle`, fixed at construction: every driver object of a
   * program sharing the same values is a special case. `dutycyle` keeps the
   * driver's own spelling.
   */
  class HarpPwm {
    const minFrequency: int
    const minDutyCycle: int
    var frequency: int
    var dutycyle: int
    var enabled: bool
    ghost var log: seq<PwmCall>

    /** A driver in an arbitrary state; its own start-up values are not modelled. */
    constructor (minFrequency: int, minDutyCycle: int, frequency: int, dutycyle: int, enabled: bool)
      ensures this.minFrequency == minFrequency && this.minDutyCycle == minDutyCycle
      ensures Config() == PwmModel.Config(frequency, dutycyle, enabled) && log == []
    {
      this.minFrequency := minFrequency;
      this.minDutyCycle := minDutyCycle;
      this.frequency := frequency;
      this.dutycyle := dutycyle;
      this.enabled := enabled;
      log := [];
    }

    function Limits(): Limits
    {
      PwmModel.Limits(minFrequency, minDutyCycle)
    }

    function Config(): Config
      reads this
    {
      PwmModel.Config(frequency, dutycyle, enabled)
    }

    /** `start()`: Running, with the configured frequency and duty cycle. */
    method Start()
      modifies this
      ensures Config() == Started(old(Config())) && log == old(log) + [StartCall]
    {
      enabled := true;
      log := log + [StartCall];
    }

    /** `stop()`: Stopped; frequency and duty cycle are kept. */
    method Stop()
      modifies this
      ensures Config() == Stopped(old(Config())) && log == old(log) + [StopCall]
    {
      enabled := false;
      log := log + [StopCall];
    }
  }
}
