/**
 * The PWM generator as the PWM registers see it: a frequency, a duty cycle
 * and an enabled flag (states Stopped and Running), and what each register
 * write does to them.
 */
module PwmModel {

  /** The observable configuration of the PWM peripheral. */
  datatype Config = Config(frequency: int, dutycycle: int, enabled: bool)

  /** The peripheral's class constants `MinFrequency` and `MinDutyCycle`. */
  datatype Limits = Limits(minFrequency: int, minDutyCycle: int)

  /** A call the register layer makes on the PWM peripheral. */
  datatype PwmCall = StartCall | StopCall

  /** A write of one value to one of the four PWM registers. */
  datatype RegisterWrite =
    | FrequencyWrite(v: int)
    | DutyCycleWrite(v: int)
    | StartWrite(v: int)
    | StopWrite(v: int)

  /** The frequency register's validation accepts `v`. */
  predicate FrequencyValid(lim: Limits, v: int)
  {
    !(v < lim.minFrequency)
  }

  /** The duty-cycle register's validation accepts `v`. */
  predicate DutyCycleValid(lim: Limits, v: int)
  {
    !(v > 100 || v < lim.minDutyCycle)
  }

  /** The register write passes its register's validation. */
  predicate Accepted(lim: Limits, w: RegisterWrite)
  {
    match w
    case FrequencyWrite(v) => FrequencyValid(lim, v)
    case DutyCycleWrite(v) => DutyCycleValid(lim, v)
    case _ => true
  }

  /** `start()`: the signal runs with the configured frequency and duty cycle. */
  function Started(c: Config): Config
  {
    c.(enabled := true)
  }

  /** `stop()`: the signal stops; the configuration is kept for the next start. */
  function Stopped(c: Config): Config
  {
    c.(enabled := false)
  }

  /**
   * The PWM configuration after a register write. A write that fails
   * validation leaves the configuration as it was.
   */
  function Apply(lim: Limits, c: Config, w: RegisterWrite): Config
  {
    match w
    case FrequencyWrite(v) => if FrequencyValid(lim, v) then c.(frequency := v) else c
    case DutyCycleWrite(v) => if DutyCycleValid(lim, v) then c.(dutycycle := v) else c
    case StartWrite(_) => Started(c)
    case StopWrite(_) => if c.enabled then Stopped(c) else c
  }

  /** The configuration after the writes of `ws`, oldest first. */
  function Run(lim: Limits, c: Config, ws: seq<RegisterWrite>): Config
    decreases |ws|
  {
    if ws == [] then c else Apply(lim, Run(lim, c, ws[..|ws| - 1]), ws[|ws| - 1])
  }

  /** Frequency and duty cycle are values the registers would accept. */
  predicate SettingsValid(lim: Limits, c: Config)
  {
    FrequencyValid(lim, c.frequency) && DutyCycleValid(lim, c.dutycycle)
  }

  /** Running iff the latest start or stop write was a start (`init` if none). */
  function LastRunCommand(ws: seq<RegisterWrite>, init: bool): bool
    decreases |ws|
  {
    if ws == [] then init
    else match ws[|ws| - 1]
      case StartWrite(_) => true
      case StopWrite(_) => false
      case _ => LastRunCommand(ws[..|ws| - 1], init)
  }

  /** The value of the latest accepted frequency write (`init` if none). */
  function LastAcceptedFrequency(lim: Limits, ws: seq<RegisterWrite>, init: int): int
    decreases |ws|
  {
    if ws == [] then init
    else if ws[|ws| - 1].FrequencyWrite? && Accepted(lim, ws[|ws| - 1]) then ws[|ws| - 1].v
    else LastAcceptedFrequency(lim, ws[..|ws| - 1], init)
  }

  /** The value of the latest accepted duty-cycle write (`init` if none). */
  function LastAcceptedDutyCycle(lim: Limits, ws: seq<RegisterWrite>, init: int): int
    decreases |ws|
  {
    if ws == [] then init
    else if ws[|ws| - 1].DutyCycleWrite? && Accepted(lim, ws[|ws| - 1]) then ws[|ws| - 1].v
    else LastAcceptedDutyCycle(lim, ws[..|ws| - 1], init)
  }

  /** No sequence of register writes takes frequency or duty cycle out of range. */
  lemma {:induction false} RunKeepsSettingsValid(lim: Limits, c: Config, ws: seq<RegisterWrite>)
    requires SettingsValid(lim, c)
    ensures SettingsValid(lim, Run(lim, c, ws))
    decreases |ws|
  {
    if ws != [] {
      RunKeepsSettingsValid(lim, c, ws[..|ws| - 1]);
    }
  }

  /**
   * Start is unconditional and stop is a no-op when stopped, so the PWM runs
   * exactly when the latest start or stop write was a start.
   */
  lemma {:induction false} RunEnabledFollowsLastCommand(lim: Limits, c: Config, ws: seq<RegisterWrite>)
    ensures Run(lim, c, ws).enabled == LastRunCommand(ws, c.enabled)
    decreases |ws|
  {
    if ws != [] {
      RunEnabledFollowsLastCommand(lim, c, ws[..|ws| - 1]);
    }
  }

  /**
   * Frequency and duty cycle are those of the latest accepted writes:
   * rejected writes and start/stop writes never change them.
   */
  lemma {:induction false} RunSettingsFollowLastAcceptedWrites(lim: Limits, c: Config, ws: seq<RegisterWrite>)
    ensures Run(lim, c, ws).frequency == LastAcceptedFrequency(lim, ws, c.frequency)
    ensures Run(lim, c, ws).dutycycle == LastAcceptedDutyCycle(lim, ws, c.dutycycle)
    decreases |ws|
  {
    if ws != [] {
      RunSettingsFollowLastAcceptedWrites(lim, c, ws[..|ws| - 1]);
    }
  }
}
