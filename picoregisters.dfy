/**
 * The Harp registers of the Pico device. Each register stores the value of
 * its last accepted write, as the base read-write register does, and holds
 * a reference to the peripheral it acts on. A write's contract gives the
 * new stored value, the new peripheral state and the calls logged on the
 * peripheral; it does not order the store against the peripheral update.
 *
 * The base register's check of the requested type and of the payload's
 * length, together with the assumption that the payload's element lies in
 * the type's range, is the precondition `t == typ && Conforms(t, payload)`.
 */
module PicoRegisters {
  import opened Wrappers
  import opened HarpTypes
  import opened Pins
  import opened PwmModel
  import opened Peripherals

  /** The error a register raises when its validation rejects a value. */
  datatype WriteError = InvalidValue

  /** Mirrors an array of digital input pins: reads report the live pins. */
  class DigitalInputArrayRegister {
    const typ: HarpType := U8
    const length: nat := 1
    var value: seq<int>
    const inputs: DigitalInputArray

    constructor (inputs: DigitalInputArray)
      ensures this.inputs == inputs && value == [0]
    {
      value := [0];
      this.inputs := inputs;
    }

    /** The pins as they are now, not the stored value; nothing changes. */
    method Read(t: HarpType) returns (r: seq<int>)
      requires t == typ
      ensures |r| == length && Conforms(typ, r)
      ensures r[0] == inputs.state as int
    {
      r := [inputs.state as int];
    }
  }

  /** Turns ON the pins of the written mask. */
  class SetDigitalOutputArrayRegister {
    const typ: HarpType := U8
    const length: nat := 1
    var value: seq<int>
    const outputs: DigitalOutputArray

    /** Binding the register clears every output pin. */
    constructor (outputs: DigitalOutputArray)
      requires outputs.Valid()
      modifies outputs
      ensures this.outputs == outputs && value == [0]
      ensures outputs.Valid() && outputs.initial == old(outputs.initial)
      ensures outputs.state == 0 && outputs.log == old(outputs.log) + [ClearAllCall]
    {
      value := [0];
      this.outputs := outputs;
      new;
      outputs.ClearAll();
    }

    /** Stores the mask, then makes one `set_state(mask)` call. */
    method Write(t: HarpType, mask: seq<int>)
      requires t == typ && Conforms(t, mask)
      requires outputs.Valid()
      modifies this, outputs
      ensures value == mask
      ensures outputs.Valid() && outputs.initial == old(outputs.initial)
      ensures outputs.log == old(outputs.log) + [SetCall(mask[0] as bv8)]
      ensures outputs.state == SetPins(old(outputs.state), mask[0] as bv8)
    {
      value := mask;
      outputs.SetState(mask[0] as bv8);
    }
  }

  /** Turns OFF the pins of the written mask. */
  class ClearDigitalOutputArrayRegister {
    const typ: HarpType := U8
    const length: nat := 1
    var value: seq<int>
    const outputs: DigitalOutputArray

    /** Binding the register clears every output pin. */
    constructor (outputs: DigitalOutputArray)
      requires outputs.Valid()
      modifies outputs
      ensures this.outputs == outputs && value == [0]
      ensures outputs.Valid() && outputs.initial == old(outputs.initial)
      ensures outputs.state == 0 && outputs.log == old(outputs.log) + [ClearAllCall]
    {
      value := [0];
      this.outputs := outputs;
      new;
      outputs.ClearAll();
    }

    /** Stores the mask, then makes one `clear_state(mask)` call. */
    method Write(t: HarpType, mask: seq<int>)
      requires t == typ && Conforms(t, mask)
      requires outputs.Valid()
      modifies this, outputs
      ensures value == mask
      ensures outputs.Valid() && outputs.initial == old(outputs.initial)
      ensures outputs.log == old(outputs.log) + [ClearCall(mask[0] as bv8)]
      ensures outputs.state == ClearPins(old(outputs.state), mask[0] as bv8)
    {
      value := mask;
      outputs.ClearState(mask[0] as bv8);
    }
  }

  /** Inverts the pins of the written mask. */
  class ToggleDigitalOutputArrayRegister {
    const typ: HarpType := U8
    const length: nat := 1
    var value: seq<int>
    const outputs: DigitalOutputArray

    /** Binding the register clears every output pin. */
    constructor (outputs: DigitalOutputArray)
      requires outputs.Valid()
      modifies outputs
      ensures this.outputs == outputs && value == [0]
      ensures outputs.Valid() && outputs.initial == old(outputs.initial)
      ensures outputs.state == 0 && outputs.log == old(outputs.log) + [ClearAllCall]
    {
      value := [0];
      this.outputs := outputs;
      new;
      outputs.ClearAll();
    }

    /** Stores the mask, then makes one `toggle_state(mask)` call. */
    method Write(t: HarpType, mask: seq<int>)
      requires t == typ && Conforms(t, mask)
      requires outputs.Valid()
      modifies this, outputs
      ensures value == mask
      ensures outputs.Valid() && outputs.initial == old(outputs.initial)
      ensures outputs.log == old(outputs.log) + [ToggleCall(mask[0] as bv8)]
      ensures outputs.state == TogglePins(old(outputs.state), mask[0] as bv8)
    {
      value := mask;
      outputs.ToggleState(mask[0] as bv8);
    }
  }

  /** Maps an ADC channel to a register: reads sample the channel. */
  class AdcRegister {
    const typ: HarpType := U16
    const length: nat := 1
    const adc: Adc

    constructor (adc: Adc)
      ensures this.adc == adc
    {
      this.adc := adc;
    }

    /** A fresh sample of the channel; nothing changes. */
    method Read(t: HarpType) returns (r: seq<int>)
      requires t == typ
      ensures |r| == length && Conforms(typ, r)
      ensures r[0] == adc.sample
    {
      var sample := adc.ReadU16();
      r := [sample];
    }
  }

  /** Enables or disables the ADC stream event. */
  class AnalogStreamStateRegister {
    const typ: HarpType := U8
    var value: seq<int>
    const device: PicoAnalog

    constructor (device: PicoAnalog)
      ensures this.device == device && value == [0]
    {
      value := [0];
      this.device := device;
    }

    /** Stores the value, then enables the stream iff the value is positive. */
    method Write(t: HarpType, v: seq<int>)
      requires t == typ && Conforms(t, v)
      modifies this, device.adcEvent
      ensures value == v
      ensures device.adcEvent.enabled <==> v[0] > 0
      ensures device.adcEvent.log == old(device.adcEvent.log) + [if v[0] > 0 then EnableCall else DisableCall]
    {
      value := v;
      if v[0] > 0 {
        device.adcEvent.Enable();
      } else {
        device.adcEvent.Disable();
      }
    }
  }

  /** Stores the PWM frequency and passes it to the PWM driver. */
  class PwmFreqRegister {
    const typ: HarpType := U16
    const length: nat := 1
    var value: seq<int>
    const pwm: HarpPwm

    /** The stored value starts at the driver's minimum frequency. */
    constructor (pwm: HarpPwm)
      ensures this.pwm == pwm && value == [pwm.minFrequency]
    {
      value := [pwm.minFrequency];
      this.pwm := pwm;
    }

    /**
     * A frequency below the minimum raises before anything is stored;
     * otherwise the value is stored and becomes the driver's frequency.
     */
    method Write(t: HarpType, v: seq<int>) returns (r: Outcome<WriteError>)
      requires t == typ && Conforms(t, v)
      modifies this, pwm
      ensures r.Pass? <==> v[0] >= pwm.minFrequency
      ensures r.Fail? ==> r.error == InvalidValue && value == old(value)
      ensures r.Fail? ==> pwm.frequency == old(pwm.frequency)
      ensures r.Pass? ==> value == v && pwm.frequency == v[0]
      ensures pwm.Config() == Apply(pwm.Limits(), old(pwm.Config()), FrequencyWrite(v[0]))
      ensures pwm.log == old(pwm.log)
    {
      if !FrequencyValid(pwm.Limits(), v[0]) {
        return Fail(InvalidValue);
      }
      value := v;
      pwm.frequency := v[0];
      r := Pass;
    }
  }

  /** Stores the PWM duty cycle (a percentage) and passes it to the PWM driver. */
  class PwmDutycycleRegister {
    const typ: HarpType := U8
    const length: nat := 1
    var value: seq<int>
    const pwm: HarpPwm

    /**
     * The state after the base register's initialisation alone, with the
     * minimum duty cycle stored and the driver untouched. Only `Create`
     * models constructing this register; this intermediate state is never
     * exposed by the driver's code.
     */
    constructor (pwm: HarpPwm)
      ensures this.pwm == pwm && value == [pwm.minDutyCycle]
    {
      value := [pwm.minDutyCycle];
      this.pwm := pwm;
    }

    /**
     * Construction followed by the write of a 0 % duty cycle. The write, and
     * so the construction, raises when the minimum duty cycle is above 0.
     */
    static method Create(pwm: HarpPwm) returns (r: Option<PwmDutycycleRegister>)
      modifies pwm
      ensures r.None? <==> pwm.minDutyCycle > 0
      ensures r.None? ==> pwm.Config() == old(pwm.Config())
      ensures r.Some? ==> fresh(r.value) && r.value.pwm == pwm && r.value.value == [0]
      ensures r.Some? ==> pwm.Config() == old(pwm.Config()).(dutycycle := 0)
      ensures pwm.log == old(pwm.log)
    {
      var reg := new PwmDutycycleRegister(pwm);
      var written := reg.Write(U8, [0]);
      if written.Pass? {
        r := Some(reg);
      } else {
        r := None;
      }
    }

    /**
     * A value above 100 or below the minimum raises before anything is
     * stored; otherwise the value is stored and becomes the driver's duty cycle.
     */
    method Write(t: HarpType, v: seq<int>) returns (r: Outcome<WriteError>)
      requires t == typ && Conforms(t, v)
      modifies this, pwm
      ensures r.Pass? <==> pwm.minDutyCycle <= v[0] <= 100
      ensures r.Fail? ==> r.error == InvalidValue && value == old(value)
      ensures r.Fail? ==> pwm.dutycyle == old(pwm.dutycyle)
      ensures r.Pass? ==> value == v && pwm.dutycyle == v[0]
      ensures pwm.Config() == Apply(pwm.Limits(), old(pwm.Config()), DutyCycleWrite(v[0]))
      ensures pwm.log == old(pwm.log)
    {
      if !DutyCycleValid(pwm.Limits(), v[0]) {
        return Fail(InvalidValue);
      }
      value := v;
      pwm.dutycyle := v[0];
      r := Pass;
    }
  }

  /** Starts (or restarts) the PWM signal. */
  class PwmStartRegister {
    const typ: HarpType := U8
    const length: nat := 1
    var value: seq<int>
    const pwm: HarpPwm

    constructor (pwm: HarpPwm)
      ensures this.pwm == pwm && value == [0]
    {
      value := [0];
      this.pwm := pwm;
    }

    /**
     * Stores the value and calls `start()` once, whether or not the PWM was
     * running: afterwards it runs with the configured frequency and duty cycle.
     */
    method Write(t: HarpType, v: seq<int>)
      requires t == typ && Conforms(t, v)
      modifies this, pwm
      ensures value == v
      ensures pwm.log == old(pwm.log) + [StartCall]
      ensures pwm.enabled
      ensures pwm.frequency == old(pwm.frequency) && pwm.dutycyle == old(pwm.dutycyle)
      ensures pwm.Config() == Apply(pwm.Limits(), old(pwm.Config()), StartWrite(v[0]))
    {
      if pwm.enabled == false {
        // a new signal with the configured values
        value := v;
        pwm.Start();
      } else {
        // a running signal restarted with the configured values
        value := v;
        pwm.Start();
      }
    }
  }

  /** Stops the PWM signal. */
  class PwmStopRegister {
    const typ: HarpType := U8
    const length: nat := 1
    var value: seq<int>
    const pwm: HarpPwm

    constructor (pwm: HarpPwm)
      ensures this.pwm == pwm && value == [0]
    {
      value := [0];
      this.pwm := pwm;
    }

    /**
     * Stores the value; calls `stop()` once if the PWM was running and makes
     * no call otherwise. Either way the PWM is then stopped.
     */
    method Write(t: HarpType, v: seq<int>)
      requires t == typ && Conforms(t, v)
      modifies this, pwm
      ensures value == v
      ensures pwm.log == old(pwm.log) + (if old(pwm.enabled) then [StopCall] else [])
      ensures !pwm.enabled
      ensures pwm.frequency == old(pwm.frequency) && pwm.dutycyle == old(pwm.dutycyle)
      ensures pwm.Config() == Apply(pwm.Limits(), old(pwm.Config()), StopWrite(v[0]))
    {
      if pwm.enabled == true {
        value := v;
        pwm.Stop();
      } else {
        value := v;
      }
    }
  }
}
