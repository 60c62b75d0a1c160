/**
 Sequences of events seen by the accumulator: sensor edges, handled by the
 interrupt handler, and web requests, each of which asks for the flow rate.
 Each edge is taken as one atomic step between requests.
 */
module FlowTrace {
  import opened FlowMeter

  datatype Event = Edge | Request(now: int)

  /** The state after a run of events and the rates its requests returned, in order. */
  datatype Trace = Trace(final: Meter, rates: seq<nat>)

  /**
   Plays the events from `m`, one at a time: an `Edge` is the interrupt
   handler registered at main.py:43 firing once, a `Request` is the one
   `read_flow` call the server loop makes per connection (main.py:113-122).
   */
  function Run(m: Meter, evs: seq<Event>): Trace
    decreases |evs|
  {
    if evs == [] then Trace(m, [])
    else match evs[0]
      case Edge => Run(Pulse(m), evs[1..])
      case Request(now) =>
        var r := Read(m, now);
        var rest := Run(r.after, evs[1..]);
        Trace(rest.final, [r.lph] + rest.rates)
  }

  /** `n` sensor edges in a row. */
  function Edges(n: nat): (evs: seq<Event>)
    ensures |evs| == n
  {
    if n == 0 then [] else [Edge] + Edges(n - 1)
  }

  function EdgeCount(evs: seq<Event>): nat
  {
    if evs == [] then 0 else (if evs[0].Edge? then 1 else 0) + EdgeCount(evs[1..])
  }

  function RequestCount(evs: seq<Event>): nat
  {
    if evs == [] then 0 else (if evs[0].Request? then 1 else 0) + RequestCount(evs[1..])
  }

  function Sum(s: seq<nat>): nat
  {
    if s == [] then 0 else s[0] + Sum(s[1..])
  }

  /** Every request in `evs` comes before the window of `windowStart` has elapsed. */
  predicate AllEarly(evs: seq<Event>, windowStart: int)
  {
    forall i :: 0 <= i < |evs| && evs[i].Request? ==> evs[i].now - windowStart < WindowMs
  }

  /** Running two runs back to back is the same as running their concatenation. */
  lemma {:induction false} RunAppend(m: Meter, a: seq<Event>, b: seq<Event>)
    ensures Run(m, a + b).final == Run(Run(m, a).final, b).final
    ensures Run(m, a + b).rates == Run(m, a).rates + Run(Run(m, a).final, b).rates
    decreases |a|
  {
    if a == [] {
      assert a + b == b;
    } else {
      assert (a + b)[0] == a[0];
      assert (a + b)[1..] == a[1..] + b;
      match a[0]
      case Edge =>
        RunAppend(Pulse(m), a[1..], b);
      case Request(now) =>
        RunAppend(Read(m, now).after, a[1..], b);
    }
  }

  /** Edges only add to the count: no rate is reported and the window start stays put. */
  lemma {:induction false} EdgesAccumulate(m: Meter, n: nat)
    ensures Run(m, Edges(n)) == Trace(Meter(m.pulses + n, m.windowStart), [])
    decreases n
  {
    if n > 0 {
      EdgesAccumulate(Pulse(m), n - 1);
    }
  }

  /** One rate is reported per request. */
  lemma {:induction false} OneRatePerRequest(m: Meter, evs: seq<Event>)
    ensures |Run(m, evs).rates| == RequestCount(evs)
    decreases |evs|
  {
    if evs != [] {
      match evs[0]
      case Edge => OneRatePerRequest(Pulse(m), evs[1..]);
      case Request(now) => OneRatePerRequest(Read(m, now).after, evs[1..]);
    }
  }

  /** No sequence of edges and requests ever moves the window start. */
  lemma {:induction false} WindowStartNeverMoves(m: Meter, evs: seq<Event>)
    ensures Run(m, evs).final.windowStart == m.windowStart
    decreases |evs|
  {
    if evs != [] {
      match evs[0]
      case Edge => WindowStartNeverMoves(Pulse(m), evs[1..]);
      case Request(now) => WindowStartNeverMoves(Read(m, now).after, evs[1..]);
    }
  }

  /**
   No pulse is lost or counted twice: the rates reported plus what is still
   in the counter account for eight litres per hour per pulse ever counted.
   */
  lemma {:induction false} PulsesConserved(m: Meter, evs: seq<Event>)
    ensures Sum(Run(m, evs).rates) + 8 * Run(m, evs).final.pulses == 8 * (m.pulses + EdgeCount(evs))
    decreases |evs|
  {
    if evs != [] {
      match evs[0]
      case Edge => PulsesConserved(Pulse(m), evs[1..]);
      case Request(now) =>
        var r := Read(m, now);
        PulsesConserved(r.after, evs[1..]);
        assert ([r.lph] + Run(r.after, evs[1..]).rates)[1..] == Run(r.after, evs[1..]).rates;
    }
  }

  /** While the window has not elapsed, every request reports 0 and every pulse stays counted. */
  lemma {:induction false} EarlyRequestsReportZero(m: Meter, evs: seq<Event>)
    requires AllEarly(evs, m.windowStart)
    ensures forall i :: 0 <= i < |Run(m, evs).rates| ==> Run(m, evs).rates[i] == 0
    ensures Run(m, evs).final == Meter(m.pulses + EdgeCount(evs), m.windowStart)
    decreases |evs|
  {
    if evs != [] {
      assert AllEarly(evs[1..], m.windowStart) by {
        forall i | 0 <= i < |evs[1..]| && evs[1..][i].Request?
          ensures evs[1..][i].now - m.windowStart < WindowMs
        {
          assert evs[1..][i] == evs[i + 1];
        }
      }
      match evs[0]
      case Edge => EarlyRequestsReportZero(Pulse(m), evs[1..]);
      case Request(now) =>
        assert evs[0].Request?;
        EarlyRequestsReportZero(m, evs[1..]);
    }
  }

  /**
   `n` edges followed by a request after the window has elapsed report
   eight litres per hour for every pulse counted, and leave the counter at 0.
   */
  lemma {:induction false} PulsesThenRequest(m: Meter, n: nat, now: int)
    requires now - m.windowStart >= WindowMs
    ensures Run(m, Edges(n) + [Request(now)]) == Trace(Meter(0, m.windowStart), [8 * (m.pulses + n)])
  {
    EdgesAccumulate(m, n);
    RunAppend(m, Edges(n), [Request(now)]);
    var mid := Meter(m.pulses + n, m.windowStart);
    assert Run(mid, [Request(now)]) == Trace(Meter(0, m.windowStart), [8 * (m.pulses + n)]) by {
      assert [Request(now)][1..] == [];
    }
  }

  /** A window's worth of events: `n` edges, then a request at `now`. */
  datatype Batch = Batch(n: nat, now: int)

  function Batches(bs: seq<Batch>): seq<Event>
  {
    if bs == [] then [] else Edges(bs[0].n) + [Request(bs[0].now)] + Batches(bs[1..])
  }

  /**
   Once the window has elapsed, the window start never moves again, so every
   later request closes a window of its own: starting from an empty counter
   (just after a request that took the rate branch), each request reports
   eight litres per hour for each edge since the previous request.
   */
  lemma {:induction false} LateRequestsReportPulsesSincePrevious(m: Meter, bs: seq<Batch>)
    requires m.pulses == 0
    requires forall i :: 0 <= i < |bs| ==> bs[i].now - m.windowStart >= WindowMs
    ensures Run(m, Batches(bs)).final == m
    ensures |Run(m, Batches(bs)).rates| == |bs|
    ensures forall i :: 0 <= i < |bs| ==> Run(m, Batches(bs)).rates[i] == 8 * bs[i].n
    decreases |bs|
  {
    if bs != [] {
      var head := Edges(bs[0].n) + [Request(bs[0].now)];
      PulsesThenRequest(m, bs[0].n, bs[0].now);
      assert m == Meter(0, m.windowStart);
      LateRequestsReportPulsesSincePrevious(m, bs[1..]);
      RunAppend(m, head, Batches(bs[1..]));
      var tail := Run(m, Batches(bs[1..])).rates;
      assert Run(m, Batches(bs)).rates == [8 * bs[0].n] + tail;
      forall i | 0 <= i < |bs|
        ensures Run(m, Batches(bs)).rates[i] == 8 * bs[i].n
      {
        if i > 0 {
          assert Run(m, Batches(bs)).rates[i] == tail[i - 1];
          assert bs[1..][i - 1] == bs[i];
        }
      }
    }
  }

  /**
   From boot, every request reports 0 until the window has elapsed; the
   first request at or after it reports all the pulses counted since boot.
   */
  lemma BootThenFirstWindow(bootTicks: int, early: seq<Event>, n: nat, now: int)
    requires AllEarly(early, bootTicks)
    requires now - bootTicks >= WindowMs
    ensures forall i :: 0 <= i < |Run(Boot(bootTicks), early).rates| ==> Run(Boot(bootTicks), early).rates[i] == 0
    ensures Run(Boot(bootTicks), early + Edges(n) + [Request(now)]).rates
         == Run(Boot(bootTicks), early).rates + [8 * (EdgeCount(early) + n)]
    ensures Run(Boot(bootTicks), early + Edges(n) + [Request(now)]).final == Boot(bootTicks)
  {
    var m := Boot(bootTicks);
    EarlyRequestsReportZero(m, early);
    var mid := Run(m, early).final;
    PulsesThenRequest(mid, n, now);
    assert early + Edges(n) + [Request(now)] == early + (Edges(n) + [Request(now)]);
    RunAppend(m, early, Edges(n) + [Request(now)]);
  }
}
