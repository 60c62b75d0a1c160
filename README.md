# BioSensing flow-rate accumulator

This project models the flow-rate accumulator in the BioSensing ESP32 firmware (`main.py`) and proves its properties in Dafny.

A flow sensor raises an interrupt on every rising edge. The handler `flow` adds one to the module-level pulse counter `flow_frequency`. When a web request comes in, the main loop calls `read_flow`. If at least 10000 ms have passed since `cloopTime`, that call converts the counted pulses to litres per hour with `int((flow_frequency * 60) / 7.5)`, clears the counter and returns the rate. Otherwise it returns 0 and leaves the counter alone. `cloopTime` is read from the millisecond clock once, when the module is imported, and nothing writes it again.

The project has two files:

- `flow_meter.dfy` (module `FlowMeter`):
  - the constants: a 10000 ms window, 7.5 pulses per litre and 60 minutes per hour;
  - Python's truncating `int()` and the rate conversion;
  - the state as a value, `Meter`, with `Boot`, `Pulse` and `Read` as its specification;
  - the class `FlowAccumulator`, whose fields `flowFrequency` and `cloopTime` stand for the two globals. `Flow` is the interrupt handler and `ReadFlow(now)` is `read_flow`. Both methods may modify `flowFrequency` only, so the frame itself proves that `cloopTime` never changes.
- `flow_trace.dfy` (module `FlowTrace`): a run of sensor edges and requests, played one event at a time. Each edge is an atomic step between requests. The lemmas about whole runs live here.

The reading of the clock (`ticks_ms()`) is the parameter `now` of `ReadFlow`/`Read`. The boot tick is the constructor's parameter. Elapsed time is `now - cloopTime`.

The comment "Reset for next calculation" at main.py:62 suggests a window that restarts with every rate. The code never restarts it: `read_flow` (main.py:57-64) has no `global cloopTime` and no write to it, so the window start stays at the boot tick, and the model keeps it there. From 10 s after boot on, while the elapsed time stays below half the period of the board's tick counter, every request takes the rate branch and reports eight litres per hour for each pulse counted since the previous request that took the rate branch (for the first such request, since boot: requests before 10 s report 0 but do not clear the counter). `WindowStartNeverMoves`, `BootThenFirstWindow` and `LateRequestsReportPulsesSincePrevious` state this.

The conversion `int((n * 60) / 7.5)` is exactly `8 * n`, because 60 / 7.5 = 8. `LitresPerHour` computes it on exact reals with truncation toward zero and proves that the result equals `8 * n`.

## Model

| member | source | states |
|---|---|---|
| FlowMeter.Truncate | main.py:61 | Python's `int()` on a number truncates toward zero: for a non-negative argument the result is its floor (non-negative); for a negative argument it is its ceiling (non-positive). |
| FlowMeter.LitresPerHour | main.py:61 | `int((n * 60) / 7.5)` is exactly `8 * n` litres per hour, so it is never negative. |
| FlowMeter.Boot | main.py:20-21 | At boot the pulse counter is 0 and the window start is the boot tick. |
| FlowMeter.Pulse | main.py:38-40 | One sensor edge raises the count by exactly one and leaves the window start unchanged. |
| FlowMeter.Read | main.py:57-64 | If fewer than 10000 ms have elapsed, the result is 0 and the state is unchanged. From exactly 10000 ms on (the boundary is inclusive), the result is 8 × the count and the count is reset to 0. The window start is unchanged in both cases. With no pulses counted, the rate is 0. |
| FlowMeter.FlowAccumulator.constructor | main.py:20-21 | `flowFrequency` starts at 0 and `cloopTime` at the boot tick. |
| FlowMeter.FlowAccumulator.Flow | main.py:38-40 | The interrupt handler increments `flowFrequency` by one. Only that field may change, so `cloopTime` is untouched. The new state is `Pulse` of the old one. |
| FlowMeter.FlowAccumulator.ReadFlow | main.py:57-64 | The returned rate and the new state are `Read` of the old state at `now`. Early: returns 0 and the counter is kept. Late: returns 8 × the old count and the counter becomes 0. `cloopTime` is never written. |
| FlowMeter.FixedWindowScenario | main.py:21 | Boot at 0, then three edges. A request at 9999 reports 0. A request at 10000 reports 24. One more edge is then reported alone (8) at 10001, because the window start did not move. |
| FlowMeter.ExampleHundredTwentyFivePulses | main.py:60-63 | 125 pulses, read exactly 10000 ms after the window start, give 1000 L/h and leave the counter at 0. |
| FlowMeter.ExampleOneTickEarly | main.py:60-64 | A read 9999 ms after the window start returns 0 and keeps the count. |
| FlowTrace.EdgesAccumulate | main.py:38-40 | `n` edges raise the count by `n`, report no rate and keep the window start. |
| FlowTrace.OneRatePerRequest | main.py:57-64 | Every request returns exactly one rate, so a run reports as many rates as it has requests. |
| FlowTrace.WindowStartNeverMoves | main.py:57-64 | No run of edges and requests changes the window start. |
| FlowTrace.PulsesConserved | main.py:38-64 | Across any run, the rates reported plus 8 × the pulses still in the counter equal 8 × (the initial count + the edges). No pulse is lost or counted twice. |
| FlowTrace.EarlyRequestsReportZero | main.py:60-64 | While every request comes before the window has elapsed, every rate is 0 and the counter holds the initial count plus every edge. |
| FlowTrace.PulsesThenRequest | main.py:38-63 | `n` edges followed by a request at or after the window's end report the single rate 8 × (count + n). The counter is then 0 and the window start is unchanged. |
| FlowTrace.LateRequestsReportPulsesSincePrevious | main.py:57-64 | Start from an empty counter with every request at or after the window's end. Then request `i` reports 8 × the edges since request `i-1`, and each request resets the counter to 0. |
| FlowTrace.BootThenFirstWindow | main.py:20-64 | From boot, requests before 10000 ms report 0. The first request at or after it reports 8 × every pulse counted since boot, and the state is then the boot state again. |
| FlowTrace.RunAppend | main.py:38-64 | Playing two runs back to back gives the same final state and the same rates, in order, as playing their concatenation. |

## Left out

- The wrap-around of `ticks_ms` and `ticks_diff` (main.py:21, 59-60): time is an unbounded integer, and elapsed time is `now - cloopTime`. On the board, `ticks_diff` returns a signed difference within half the tick period; since `cloopTime` is fixed at boot, once half a period has passed since boot the difference turns negative, and `read_flow` then returns 0 for the next half period while the counter keeps growing. The model does not capture this.
- FlowMeter.LitresPerHour: does not model floating-point rounding. The division is computed on exact reals. The firmware computes it in the board's floats, which give the same value only while `n * 60` fits the float mantissa.
- The interleaving of an interrupt between the read and the reset at main.py:61-62 (a pulse that arrives there is lost): each edge is modelled as an atomic step between requests.
- Pin and interrupt registration (main.py:42-43): the link from sensor edges to `Flow` is taken as given.
- Wi-Fi association `connect_to_wifi` (main.py:27-35): network I/O with an unbounded poll loop.
- The sensor reads `read_pH`, `read_luminosity` and `read_bme280` (main.py:46-55, 66-68): foreign driver calls. The pH calibration in `read_pH` is floating-point arithmetic.
- HTML rendering `web_page` (main.py:71-103): string templating with float formatting.
- The socket server loop `start_web_server` (main.py:105-129): blocking network I/O. Its one call to `read_flow` per request is what the `Request` events of `FlowTrace` stand for.
