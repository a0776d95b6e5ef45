/** Motor: a duty-cycle output with a deadband. Values are clamped to [-1, 1] and written to
    the hardware only when they differ from the last written value by more than the
    tolerance. The hardware is an append-only log of the commands it received. */
module Motor {

  datatype ZeroPowerBehavior = BRAKE | FLOAT

  datatype HardwareCommand = SetPower(power: real) | SetZeroPowerBehavior(behavior: ZeroPowerBehavior)

  datatype Motor = Motor(lastDutyCycle: real, tolerance: real, log: seq<HardwareCommand>)

  /** The fields' initial values: nothing written yet, last duty cycle 0, tolerance 0.01. */
  const Initial: Motor := Motor(0.0, 0.01, [])

  /** MathUtil.isNear(expected, actual, tolerance) is not part of this model: it is a
      parameter of every operation that uses it. */
  type Near = (real, real, real) -> bool

  function Clamp(v: real, low: real, high: real): (r: real)
    requires low <= high
    ensures low <= r <= high
    ensures low <= v <= high ==> r == v
    ensures v < low ==> r == low
    ensures v > high ==> r == high
  {
    if v < low then low else if v > high then high else v
  }

  /** setBrake: BRAKE when braking, FLOAT otherwise; nothing else changes. */
  function SetBrake(m: Motor, brake: bool): (r: Motor)
    ensures r.log == m.log + [SetZeroPowerBehavior(if brake then BRAKE else FLOAT)]
    ensures r.lastDutyCycle == m.lastDutyCycle && r.tolerance == m.tolerance
  {
    m.(log := m.log + [SetZeroPowerBehavior(if brake then BRAKE else FLOAT)])
  }

  /** set: clamp, then write only when not near the last written value. */
  function Set(m: Motor, dutyCycle: real, near: Near): (r: Motor)
    ensures r.tolerance == m.tolerance
    ensures var v := Clamp(dutyCycle, -1.0, 1.0);
            if near(m.lastDutyCycle, v, m.tolerance) then r == m
            else r.log == m.log + [SetPower(v)] && r.lastDutyCycle == v
    ensures |r.log| > |m.log| ==> -1.0 <= r.log[|r.log| - 1].power <= 1.0
  {
    var v := Clamp(dutyCycle, -1.0, 1.0);
    if !near(m.lastDutyCycle, v, m.tolerance) then m.(log := m.log + [SetPower(v)], lastDutyCycle := v)
    else m
  }

  /** setVoltage: a duty cycle of volts over the bus voltage. The bus voltage is read from a
      field the OpMode driver does not declare, so it is a parameter here. */
  function SetVoltage(m: Motor, volts: real, busVoltage: real, near: Near): (r: Motor)
    requires busVoltage != 0.0
    ensures r.tolerance == m.tolerance
    ensures var v := Clamp(volts / busVoltage, -1.0, 1.0);
            if near(m.lastDutyCycle, v, m.tolerance) then r == m
            else r.log == m.log + [SetPower(v)] && r.lastDutyCycle == v
  {
    Set(m, volts / busVoltage, near)
  }

  /** setTolerance: only the tolerance changes. */
  function SetTolerance(m: Motor, tolerance: real): (r: Motor)
    ensures r.tolerance == tolerance && r.log == m.log && r.lastDutyCycle == m.lastDutyCycle
  {
    m.(tolerance := tolerance)
  }

  // ---------------------------------------------------------------------------------------
  // Invariants over any sequence of calls

  datatype Call = CallSet(dutyCycle: real) | CallSetVoltage(volts: real, busVoltage: real) | CallSetTolerance(tolerance: real) | CallSetBrake(brake: bool)

  /** One call on the motor. A setVoltage with a zero bus voltage is dropped here. In Java
      a nonzero voltage over a zero bus is an infinite quotient, which the clamp turns into
      a written -1 or 1 (its sign depends on the sign of the zero), and 0/0 writes NaN;
      the reals express neither. */
  function Perform(m: Motor, c: Call, near: Near): Motor {
    match c
    case CallSet(d) => Set(m, d, near)
    case CallSetVoltage(v, bus) => if bus != 0.0 then SetVoltage(m, v, bus, near) else m
    case CallSetTolerance(t) => SetTolerance(m, t)
    case CallSetBrake(b) => SetBrake(m, b)
  }

  function PerformAll(m: Motor, calls: seq<Call>, near: Near): Motor
    decreases |calls|
  {
    if |calls| == 0 then m else PerformAll(Perform(m, calls[0], near), calls[1..], near)
  }

  /** The powers written so far, in order. */
  function Powers(log: seq<HardwareCommand>): seq<real>
    decreases |log|
  {
    if |log| == 0 then []
    else Powers(log[..|log| - 1]) + (if log[|log| - 1].SetPower? then [log[|log| - 1].power] else [])
  }

  /** Every power written lies in [-1, 1], and lastDutyCycle is the last power written (0
      before the first write). */
  predicate Consistent(m: Motor) {
    var p := Powers(m.log);
    && (forall i :: 0 <= i < |p| ==> -1.0 <= p[i] <= 1.0)
    && m.lastDutyCycle == (if |p| == 0 then 0.0 else p[|p| - 1])
  }

  lemma PowersAppend(log: seq<HardwareCommand>, c: HardwareCommand)
    ensures Powers(log + [c]) == Powers(log) + (if c.SetPower? then [c.power] else [])
  {
    assert (log + [c])[..|log + [c]| - 1] == log;
  }

  /** Writing an in-range power keeps the motor consistent. */
  lemma WritePowerKeepsConsistent(m: Motor, v: real)
    requires Consistent(m) && -1.0 <= v <= 1.0
    ensures Consistent(m.(log := m.log + [SetPower(v)], lastDutyCycle := v))
  {
    PowersAppend(m.log, SetPower(v));
  }

  lemma SetKeepsConsistent(m: Motor, dutyCycle: real, near: Near)
    requires Consistent(m)
    ensures Consistent(Set(m, dutyCycle, near))
  {
    var v := Clamp(dutyCycle, -1.0, 1.0);
    if !near(m.lastDutyCycle, v, m.tolerance) {
      WritePowerKeepsConsistent(m, v);
    }
  }

  lemma PerformKeepsConsistent(m: Motor, c: Call, near: Near)
    requires Consistent(m)
    ensures Consistent(Perform(m, c, near))
  {
    match c
    case CallSet(d) => SetKeepsConsistent(m, d, near);
    case CallSetVoltage(v, bus) =>
      if bus != 0.0 {
        SetKeepsConsistent(m, v / bus, near);
      }
    case CallSetTolerance(t) =>
    case CallSetBrake(b) => PowersAppend(m.log, SetZeroPowerBehavior(if b then BRAKE else FLOAT));
  }

  /** Starting from the initial state, any sequence of calls writes only values in [-1, 1]
      and keeps lastDutyCycle equal to the last value written. */
  lemma {:induction false} CallsKeepConsistent(m: Motor, calls: seq<Call>, near: Near)
    requires Consistent(m)
    ensures Consistent(PerformAll(m, calls, near))
    decreases |calls|
  {
    if |calls| > 0 {
      PerformKeepsConsistent(m, calls[0], near);
      CallsKeepConsistent(Perform(m, calls[0], near), calls[1..], near);
    }
  }

  lemma InitialIsConsistent()
    ensures Consistent(Initial)
    ensures Initial.lastDutyCycle == 0.0 && Initial.tolerance == 0.01 && Initial.log == []
  {
  }
}
