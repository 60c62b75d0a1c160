/**
 The flow-rate accumulator of the BioSensing firmware (main.py).

 A flow sensor raises an interrupt on every rising edge; the handler counts
 the pulses. On every web request the main loop asks for the flow rate: once
 the measurement window has elapsed since the window start, the pulses are
 converted to litres per hour and the counter is cleared; before that, the
 rate reported is 0 and the counter is left alone.

 The window start is captured once at boot and is never written again, so
 after the first ten seconds every request closes a "window" (on the board,
 only while the elapsed time stays below half the tick period; the model's
 clock does not wrap).

 Time is a plain integer tick count in milliseconds, passed in by the caller
 in place of the board's millisecond clock.
 */
module FlowMeter {

  /** Length of the measurement window, in milliseconds. */
  const WindowMs: int := 10000

  /** Calibration factor of the flow sensor: pulses per litre. */
  const PulsesPerLitre: real := 7.5

  /** Minutes per hour: pulses are scaled by 60 before dividing by the calibration factor. */
  const MinutesPerHour: int := 60

  /** Python's int() on a number: truncation toward zero. */
  function Truncate(x: real): (n: int)
    ensures 0.0 <= x ==> 0 <= n && n as real <= x < n as real + 1.0
    ensures x < 0.0 ==> n <= 0 && n as real - 1.0 < x <= n as real
  {
    if 0.0 <= x then x.Floor else -((-x).Floor)
  }

  /**
   The rate reported for a count of pulses, int((pulses * 60) / 7.5).
   Because 60 / 7.5 is exactly 8, this is eight litres per hour per pulse.
   */
  function LitresPerHour(pulses: nat): (lph: nat)
    ensures lph == 8 * pulses
  {
    var exact := (pulses * MinutesPerHour) as real / PulsesPerLitre;
    assert exact == (8 * pulses) as real;
    Truncate(exact)
  }

  /** The two pieces of state the accumulator keeps, as a value. */
  datatype Meter = Meter(pulses: nat, windowStart: int)

  /** What one rate request returns: the rate and the state afterwards. */
  datatype Reading = Reading(lph: nat, after: Meter)

  /** The state at boot: no pulses counted, the window opened at the boot tick. */
  function Boot(bootTicks: int): (m: Meter)
    ensures m.pulses == 0 && m.windowStart == bootTicks
  {
    Meter(0, bootTicks)
  }

  /** One rising edge of the sensor: the count goes up by one, nothing else changes. */
  function Pulse(m: Meter): (m': Meter)
    ensures m'.pulses == m.pulses + 1
    ensures m'.windowStart == m.windowStart
  {
    m.(pulses := m.pulses + 1)
  }

  /** Whether a request at `now` falls at or after the end of the window (the boundary is inclusive). */
  predicate WindowElapsed(m: Meter, now: int)
  {
    now - m.windowStart >= WindowMs
  }

  /**
   A rate request at tick `now`. Once the window has elapsed, the pulses
   are converted and cleared; before that, 0 is returned and the state is
   kept. The window start is kept in both cases.
   */
  function Read(m: Meter, now: int): (r: Reading)
    ensures r.after.windowStart == m.windowStart
    ensures now - m.windowStart < WindowMs ==> r.lph == 0 && r.after == m
    ensures now - m.windowStart >= WindowMs ==> r.lph == 8 * m.pulses && r.after.pulses == 0
    ensures m.pulses == 0 ==> r.lph == 0
  {
    if WindowElapsed(m, now) then
      Reading(LitresPerHour(m.pulses), m.(pulses := 0))
    else
      Reading(0, m)
  }

  /**
   The accumulator as the firmware keeps it: two module-level variables,
   the pulse counter written by the interrupt handler and by the rate
   request, and the window start written only at boot.
   */
  class FlowAccumulator {
    var flowFrequency: nat
    var cloopTime: int

    /** The state as a value. */
    function State(): Meter
      reads this
    {
      Meter(flowFrequency, cloopTime)
    }

    /** Module initialisation: the counter starts at 0, the window at the boot tick. */
    constructor (bootTicks: int)
      ensures State() == Boot(bootTicks)
      ensures flowFrequency == 0 && cloopTime == bootTicks
    {
      flowFrequency := 0;
      cloopTime := bootTicks;
    }

    /** The interrupt handler: one more pulse; the window start is not touched. */
    method Flow()
      modifies this`flowFrequency
      ensures State() == Pulse(old(State()))
      ensures flowFrequency == old(flowFrequency) + 1
      ensures cloopTime == old(cloopTime)
    {
      flowFrequency := flowFrequency + 1;
    }

    /**
     The rate request, with the clock reading passed in. Only the counter
     may change; the window start stays where boot put it.
     */
    method ReadFlow(now: int) returns (lph: nat)
      modifies this`flowFrequency
      ensures Read(old(State()), now) == Reading(lph, State())
      ensures cloopTime == old(cloopTime)
      ensures now - cloopTime < WindowMs ==> lph == 0 && flowFrequency == old(flowFrequency)
      ensures now - cloopTime >= WindowMs ==> lph == 8 * old(flowFrequency) && flowFrequency == 0
    {
      if now - cloopTime >= WindowMs {
        lph := LitresPerHour(flowFrequency);
        flowFrequency := 0;
        return;
      }
      lph := 0;
    }
  }

  /**
   A boot at tick 0 followed by three edges: a request at 9999 reports 0 and
   keeps the pulses; the request at 10000 reports them all; one more edge is
   then reported alone at 10001, because the window start has not moved.
   */
  method FixedWindowScenario() returns (early: nat, first: nat, second: nat)
    ensures early == 0 && first == 24 && second == 8
  {
    var acc := new FlowAccumulator(0);
    acc.Flow();
    acc.Flow();
    acc.Flow();
    early := acc.ReadFlow(9999);
    first := acc.ReadFlow(10000);
    acc.Flow();
    second := acc.ReadFlow(10001);
  }

  /** 125 pulses in a closed window are reported as 1000 litres per hour. */
  lemma ExampleHundredTwentyFivePulses(windowStart: int)
    ensures Read(Meter(125, windowStart), windowStart + 10000) == Reading(1000, Meter(0, windowStart))
  {
  }

  /** One millisecond before the window closes, the rate is 0 and the count is kept. */
  lemma ExampleOneTickEarly(pulses: nat, windowStart: int)
    ensures Read(Meter(pulses, windowStart), windowStart + 9999) == Reading(0, Meter(pulses, windowStart))
  {
  }
}
