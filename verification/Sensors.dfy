/**
  The sensor the driver cannot see: what its commands do, what a truthful adapter
  may report about them, and histories of a sensor that follow a driver's log.
 */
module Sensors {
  import opened Types
  import opened Commands
  import opened Codec
  import opened Engine

  datatype Registers = Registers(offset: u16, altitude: u16, pressure: u16, enabled: u16, target: u16,
                                 initial: u16, standard: u16)

  function Get(r: Registers, f: Field): u16 {
    match f
    case TemperatureOffset => r.offset
    case SensorAltitude => r.altitude
    case AmbientPressure => r.pressure
    case AscEnabled => r.enabled
    case AscTarget => r.target
    case AscInitialPeriod => r.initial
    case AscStandardPeriod => r.standard
  }

  function Put(r: Registers, f: Field, w: u16): Registers {
    match f
    case TemperatureOffset => r.(offset := w)
    case SensorAltitude => r.(altitude := w)
    case AmbientPressure => r.(pressure := w)
    case AscEnabled => r.(enabled := w)
    case AscTarget => r.(target := w)
    case AscInitialPeriod => r.(initial := w)
    case AscStandardPeriod => r.(standard := w)
  }

  lemma GetPut(r: Registers, f: Field, g: Field, w: u16)
    ensures Get(Put(r, f, w), g) == if f == g then w else Get(r, g)
  {
  }

  /** `pending` is the command whose response the next read fetches. */
  datatype Sensor = Sensor(mode: Mode, runtime: Registers, eeprom: Registers, source: Option<Field>,
                           pending: Option<u16>, serial: nat, variant: u16)

  /** Ambient pressure is never persisted. */
  predicate Persistable(f: Field) { !f.AmbientPressure? }

  /** Working and stored settings agree. */
  predicate Agrees(a: Sensor) {
    forall f: Field :: Persistable(f) ==> Get(a.runtime, f) == Get(a.eeprom, f)
  }

  /** Commands that only select a response. */
  predicate Selects(command: u16) {
    command in {CMD_GET_SERIAL, CMD_GET_VARIANT, CMD_GET_DATA_READY, CMD_READ_MEASUREMENT, CMD_GET_TEMPERATURE_OFFSET,
                CMD_GET_SENSOR_ALTITUDE, CMD_AMBIENT_PRESSURE, CMD_GET_ASC_ENABLED, CMD_GET_ASC_TARGET,
                CMD_GET_ASC_INITIAL_PERIOD, CMD_GET_ASC_STANDARD_PERIOD}
  }

  predicate Measuring(m: Mode) { m.Periodic? || m.LowPower? }

  /** The wire traffic that a mode permits. */
  predicate Permits(m: Mode, w: Wire) {
    match m
    case Idle => true
    case Asleep => false
    case UnknownMode => false
    case _ =>
      match w
      case Read(_) => true
      case Write(c) => c in {CMD_READ_MEASUREMENT, CMD_GET_DATA_READY, CMD_AMBIENT_PRESSURE, CMD_STOP_PERIODIC}
      case WriteWord(c, _) => c == CMD_AMBIENT_PRESSURE
  }

  /** Everything but the selected response is as it was. */
  predicate SameBut(a: Sensor, b: Sensor) { b == a.(pending := b.pending) }

  /** Settings may be reloaded from storage, one by one. */
  predicate Reloads(a: Sensor, b: Sensor) {
    b.eeprom == a.eeprom &&
    forall f: Field :: Persistable(f) ==>
      Get(b.runtime, f) == Get(a.runtime, f) || Get(b.runtime, f) == Get(a.eeprom, f)
  }

  /** The field that a setting command writes. */
  function SettingOf(command: u16): Option<Field> {
    if command == CMD_SET_TEMPERATURE_OFFSET then Some(TemperatureOffset)
    else if command == CMD_SET_SENSOR_ALTITUDE then Some(SensorAltitude)
    else if command == CMD_AMBIENT_PRESSURE then Some(AmbientPressure)
    else if command == CMD_SET_ASC_ENABLED then Some(AscEnabled)
    else if command == CMD_SET_ASC_TARGET then Some(AscTarget)
    else if command == CMD_SET_ASC_INITIAL_PERIOD then Some(AscInitialPeriod)
    else if command == CMD_SET_ASC_STANDARD_PERIOD then Some(AscStandardPeriod)
    else None
  }

  function Stored(a: Sensor, f: Field, w: u16): Sensor {
    a.(runtime := Put(a.runtime, f, w), source := if IsCompensation(f) then Some(f) else a.source)
  }

  /** The effect of a two-byte command; nothing is promised for unmanaged commands, or in a forbidding mode. */
  predicate ExecutesCommand(a: Sensor, c: u16, b: Sensor) {
    if Selects(c) then b == a.(pending := Some(c))
    else if c == CMD_WAKE_UP then b.mode == (if a.mode.Asleep? then Idle else a.mode) && Reloads(a, b)
    else if c == CMD_STOP_PERIODIC then SameBut(a.(mode := if Measuring(a.mode) then Idle else a.mode), b)
    else if !a.mode.Idle? then true
    else if c == CMD_START_PERIODIC then SameBut(a.(mode := Periodic), b)
    else if c == CMD_START_LOW_POWER then SameBut(a.(mode := LowPower), b)
    else if c == CMD_POWER_DOWN then SameBut(a.(mode := Asleep), b)
    else if c in {CMD_SINGLE_SHOT, CMD_SINGLE_SHOT_RHT, CMD_SELF_TEST} then SameBut(a, b)
    else if c == CMD_PERSIST_SETTINGS then SameBut(a.(eeprom := b.eeprom), b) && Agrees(b)
    else if c == CMD_REINIT then b.mode.Idle? && b.eeprom == a.eeprom && Agrees(b)
    else if c == CMD_FACTORY_RESET then b.mode.Idle? && Agrees(b)
    else true
  }

  /** The effect of a command with a word. */
  predicate ExecutesWord(a: Sensor, c: u16, w: u16, b: Sensor) {
    if !Permits(a.mode, WriteWord(c, w)) then true
    else if SettingOf(c).Some? then SameBut(Stored(a, SettingOf(c).value, w), b)
    else if c == CMD_FORCED_RECALIBRATION then SameBut(a, b)
    else true
  }

  /** The sensor accepts a transfer completely. It is never swapped for another. */
  predicate Executes(a: Sensor, w: Wire, b: Sensor) {
    b.serial == a.serial && b.variant == a.variant &&
    match w
    case Write(c) => ExecutesCommand(a, c, b)
    case WriteWord(c, word) => ExecutesWord(a, c, word, b)
    case Read(_) => SameBut(a, b)
  }

  /** The words a sensor answers with. Serial number and variant are answered only while idle. */
  predicate Answers(a: Sensor, words: seq<u16>) {
    match a.pending
    case None => true
    case Some(c) =>
      (c == CMD_GET_SERIAL ==> a.mode.Idle? && |words| == 3 && SerialOf(words) == a.serial) &&
      (c == CMD_GET_VARIANT ==> a.mode.Idle? && words == [a.variant]) &&
      forall f: Field :: c == GetCommand(f) ==> words == [Get(a.runtime, f)]
  }

  /** A read that arrived intact carries the sensor's answer. */
  predicate Delivers(a: Sensor, call: Call) {
    call.wire.Read? && call.norm.code == CodeOk &&
    AllWordsOk(Buffer(call.raw.data, 3 * call.wire.count), call.wire.count) ==>
      Answers(a, Words(Buffer(call.raw.data, 3 * call.wire.count), call.wire.count))
  }

  /**
    A truthful adapter: complete means executed, not started and no effect mean not executed, indeterminate
    means either. A wake command can take effect even though its only evidence is a NACK.
   */
  predicate Moves(a: Sensor, call: Call, b: Sensor) {
    if call.wire.Read? then SameBut(a, b) && Delivers(a, call)
    else
      match call.norm.disposition
      case NotStarted => b == a
      case NoEffect => b == a ||
        (call.wire == Write(CMD_WAKE_UP) && call.norm.code == CodeNack && Executes(a, call.wire, b))
      case Complete => Executes(a, call.wire, b)
      case _ => b == a || Executes(a, call.wire, b)
  }

  /** One way for a sensor to accept a transfer. */
  function Obeyed(a: Sensor, w: Wire): Sensor {
    match w
    case Write(c) =>
      if Selects(c) then a.(pending := Some(c))
      else if c == CMD_WAKE_UP then a.(mode := if a.mode.Asleep? then Idle else a.mode)
      else if c == CMD_STOP_PERIODIC then a.(mode := if Measuring(a.mode) then Idle else a.mode)
      else if !a.mode.Idle? then a
      else if c == CMD_START_PERIODIC then a.(mode := Periodic)
      else if c == CMD_START_LOW_POWER then a.(mode := LowPower)
      else if c == CMD_POWER_DOWN then a.(mode := Asleep)
      else if c == CMD_PERSIST_SETTINGS then a.(eeprom := a.runtime)
      else if c == CMD_REINIT then a.(runtime := a.eeprom)
      else if c == CMD_FACTORY_RESET then a.(runtime := a.eeprom)
      else a
    case WriteWord(c, word) =>
      if Permits(a.mode, w) && SettingOf(c).Some? then Stored(a, SettingOf(c).value, word) else a
    case Read(_) => a
  }

  /**
    The rules for the sensor and the adapter can always be met: any answer that delivers what it claims has a next
    sensor.
   */
  lemma SensorCanMove(a: Sensor, call: Call)
    requires Delivers(a, call)
    ensures Executes(a, call.wire, Obeyed(a, call.wire))
    ensures Moves(a, call, if call.norm.disposition == Complete then Obeyed(a, call.wire) else a)
  {
    hide AllWordsOk, Words, Buffer;
  }

  /** `history(i)` is the sensor before event `i`: it moves at callbacks only. */
  predicate Follows(log: seq<Event>, history: nat -> Sensor) {
    forall i | 0 <= i < |log| ::
      if log[i].Called? then Moves(history(i), log[i].call, history(i + 1)) else history(i + 1) == history(i)
  }

  lemma FollowsPrefix(a: seq<Event>, b: seq<Event>, history: nat -> Sensor)
    requires a <= b && Follows(b, history)
    ensures Follows(a, history)
  {
    forall i | 0 <= i < |a|
      ensures if a[i].Called? then Moves(history(i), a[i].call, history(i + 1)) else history(i + 1) == history(i)
    {
      assert a[i] == b[i];
    }
  }

  /** Without callbacks the sensor stays as it is. */
  lemma {:induction false} QuietSensor(log: seq<Event>, from: nat, history: nat -> Sensor)
    requires Follows(log, history) && from <= |log| && forall i | from <= i < |log| :: !log[i].Called?
    ensures history(|log|) == history(from)
    decreases |log|
  {
    if from < |log| {
      FollowsPrefix(log[..|log| - 1], log, history);
      QuietSensor(log[..|log| - 1], from, history);
      assert !log[|log| - 1].Called?;
    }
  }
}
