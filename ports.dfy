/**
 * The sensor port (internal/ports/sensor.go) and the background recorder
 * (internal/ports/reader.go).
 *
 * The recorder's tickers, goroutine and context are replaced by a sequence of
 * events: a sample tick, a cleanup tick or a cancellation, each tick carrying
 * the clock reading when the tick is handled.
 */
module Ports {
  import opened Domain
  import opened RepositoryPort

  /**
   * A light sensor as the port sees it: its k-th reading (counting from 0)
   * is `answer(k)`, whatever hardware or simulation stands behind it.
   */
  class LightSensor {
    const answer: nat -> Result<real>
    var calls: nat

    constructor (answer: nat -> Result<real>)
      ensures this.answer == answer && calls == 0
    {
      this.answer := answer;
      calls := 0;
    }

    method ReadLux() returns (r: Result<real>)
      modifies this
      ensures r == answer(old(calls))
      ensures calls == old(calls) + 1
    {
      r := answer(calls);
      calls := calls + 1;
    }
  }

  /** How far back the cleanup tick keeps readings: 30 days. */
  const RetentionPeriod: Duration := 30 * 24 * Hour

  datatype Event = SampleTick(now: Time) | CleanupTick(now: Time) | Cancel

  /** The port calls one sample makes, given what the sensor answered. */
  function RecordCalls(answer: Result<real>, now: Time): (cs: seq<Call>)
    ensures |cs| <= 1
    ensures cs != [] <==> answer.Ok? && answer.value >= 0.0
    ensures cs != [] ==> cs == [SaveCall(LightReading(0, answer.value, now))]
  {
    match answer
    case Err(_) => []
    case Ok(lux) =>
      match NewLightReading(lux, now)
      case Err(_) => []
      case Ok(reading) => [SaveCall(reading)]
  }

  /**
   * The port calls made while handling `events`, when the next sensor
   * reading is the k-th; nothing is handled after a cancellation.
   */
  function RunCalls(events: seq<Event>, answer: nat -> Result<real>, k: nat): seq<Call>
    decreases |events|
  {
    if events == [] then []
    else
      match events[0]
      case Cancel => []
      case SampleTick(now) => RecordCalls(answer(k), now) + RunCalls(events[1..], answer, k + 1)
      case CleanupTick(now) => [DeleteOldCall(RetentionPeriod, now)] + RunCalls(events[1..], answer, k)
  }

  /** The port calls of a whole run: the immediate sample, then the events. */
  function StartCalls(startNow: Time, events: seq<Event>, answer: nat -> Result<real>, k: nat): seq<Call>
  {
    RecordCalls(answer(k), startNow) + RunCalls(events, answer, k + 1)
  }

  /** The sample ticks before the first cancellation. */
  function SampleTicks(events: seq<Event>): nat
    decreases |events|
  {
    if events == [] then 0
    else
      match events[0]
      case Cancel => 0
      case SampleTick(_) => 1 + SampleTicks(events[1..])
      case CleanupTick(_) => SampleTicks(events[1..])
  }

  /** The cleanup ticks before the first cancellation. */
  function CleanupTicks(events: seq<Event>): nat
    decreases |events|
  {
    if events == [] then 0
    else
      match events[0]
      case Cancel => 0
      case SampleTick(_) => CleanupTicks(events[1..])
      case CleanupTick(_) => 1 + CleanupTicks(events[1..])
  }

  function CountSaves(cs: seq<Call>): nat
    decreases |cs|
  {
    if cs == [] then 0 else (if cs[0].SaveCall? then 1 else 0) + CountSaves(cs[1..])
  }

  function CountDeletes(cs: seq<Call>): nat
    decreases |cs|
  {
    if cs == [] then 0 else (if cs[0].DeleteOldCall? then 1 else 0) + CountDeletes(cs[1..])
  }

  /** The only calls a recorder makes: saves of unsaved, non-negative readings and 30-day evictions. */
  predicate IsRecorderCall(c: Call)
  {
    || (c.SaveCall? && c.reading.id == 0 && c.reading.lux >= 0.0)
    || (c.DeleteOldCall? && c.olderThan == RetentionPeriod)
  }

  lemma {:induction false} CountsAppend(a: seq<Call>, b: seq<Call>)
    ensures CountSaves(a + b) == CountSaves(a) + CountSaves(b)
    ensures CountDeletes(a + b) == CountDeletes(a) + CountDeletes(b)
    decreases |a|
  {
    if a == [] {
      assert a + b == b;
    } else {
      assert (a + b)[0] == a[0];
      assert (a + b)[1..] == a[1..] + b;
      CountsAppend(a[1..], b);
    }
  }

  /** Whatever follows a cancellation is never handled. */
  lemma {:induction false} NothingAfterCancel(pre: seq<Event>, post: seq<Event>, answer: nat -> Result<real>, k: nat)
    ensures RunCalls(pre + [Cancel] + post, answer, k) == RunCalls(pre, answer, k)
    ensures SampleTicks(pre + [Cancel] + post) == SampleTicks(pre)
    ensures CleanupTicks(pre + [Cancel] + post) == CleanupTicks(pre)
    decreases |pre|
  {
    var evs := pre + [Cancel] + post;
    if pre == [] {
      assert evs[0] == Cancel;
    } else {
      assert evs[0] == pre[0];
      assert evs[1..] == pre[1..] + [Cancel] + post;
      match pre[0]
      case Cancel =>
      case SampleTick(_) => NothingAfterCancel(pre[1..], post, answer, k + 1);
      case CleanupTick(_) => NothingAfterCancel(pre[1..], post, answer, k);
    }
  }

  /**
   * A run only saves unsaved, non-negative readings and evicts with the
   * 30-day window: one eviction per cleanup tick, at most one save per
   * sample tick.
   */
  lemma {:induction false} RunCallsShape(events: seq<Event>, answer: nat -> Result<real>, k: nat)
    ensures forall c :: c in RunCalls(events, answer, k) ==> IsRecorderCall(c)
    ensures CountDeletes(RunCalls(events, answer, k)) == CleanupTicks(events)
    ensures CountSaves(RunCalls(events, answer, k)) <= SampleTicks(events)
    decreases |events|
  {
    if events != [] {
      match events[0]
      case Cancel =>
      case SampleTick(now) =>
        var head := RecordCalls(answer(k), now);
        RunCallsShape(events[1..], answer, k + 1);
        CountsAppend(head, RunCalls(events[1..], answer, k + 1));
      case CleanupTick(now) =>
        RunCallsShape(events[1..], answer, k);
        CountsAppend([DeleteOldCall(RetentionPeriod, now)], RunCalls(events[1..], answer, k));
    }
  }

  /** When every sensor reading from the k-th on is a valid lux, every sample tick saves one reading. */
  lemma {:induction false} EverySampleSaves(events: seq<Event>, answer: nat -> Result<real>, k: nat)
    requires forall j: nat :: j >= k ==> answer(j).Ok? && answer(j).value >= 0.0
    ensures CountSaves(RunCalls(events, answer, k)) == SampleTicks(events)
    decreases |events|
  {
    if events != [] {
      match events[0]
      case Cancel =>
      case SampleTick(now) =>
        EverySampleSaves(events[1..], answer, k + 1);
        CountsAppend(RecordCalls(answer(k), now), RunCalls(events[1..], answer, k + 1));
      case CleanupTick(now) =>
        EverySampleSaves(events[1..], answer, k);
        CountsAppend([DeleteOldCall(RetentionPeriod, now)], RunCalls(events[1..], answer, k));
    }
  }

  /** The port calls handling one tick makes, when the next sensor reading is the k-th. */
  function EventCalls(e: Event, answer: nat -> Result<real>, k: nat): seq<Call>
  {
    match e
    case Cancel => []
    case SampleTick(now) => RecordCalls(answer(k), now)
    case CleanupTick(now) => [DeleteOldCall(RetentionPeriod, now)]
  }

  /** How many sensor readings handling one event takes. */
  function EventReads(e: Event): nat
  {
    if e.SampleTick? then 1 else 0
  }

  /** A run that has not been cancelled yet is its next tick followed by the rest. */
  lemma RunCallsAt(events: seq<Event>, i: int, answer: nat -> Result<real>, k: nat)
    requires 0 <= i < |events| && !events[i].Cancel?
    ensures RunCalls(events[i..], answer, k)
         == EventCalls(events[i], answer, k) + RunCalls(events[i + 1..], answer, k + EventReads(events[i]))
    ensures SampleTicks(events[i..]) == EventReads(events[i]) + SampleTicks(events[i + 1..])
  {
    assert events[i..][0] == events[i];
    assert events[i..][1..] == events[i + 1..];
  }

  /** A run stops at a cancellation. */
  lemma RunCallsStop(events: seq<Event>, i: int, answer: nat -> Result<real>, k: nat)
    requires 0 <= i <= |events| && (i < |events| ==> events[i].Cancel?)
    ensures RunCalls(events[i..], answer, k) == []
    ensures SampleTicks(events[i..]) == 0
  {
    if i < |events| {
      assert events[i..][0] == events[i];
    }
  }

  class Recorder {
    const sensor: LightSensor
    const repo: Repository
    const interval: Duration

    /** The source's NewRecorder. */
    constructor (sensor: LightSensor, repo: Repository, interval: Duration)
      ensures this.sensor == sensor && this.repo == repo && this.interval == interval
    {
      this.sensor := sensor;
      this.repo := repo;
      this.interval := interval;
    }

    /**
     * Reads the sensor once and saves a reading of the value; a sensor error,
     * a negative value or a failed save is swallowed.
     */
    method RecordOnce(now: Time)
      requires repo.Valid()
      modifies sensor, repo, repo.backend
      ensures repo.Valid() && (old(repo.Tracks()) ==> repo.Tracks())
      ensures sensor.calls == old(sensor.calls) + 1
      ensures repo.log == old(repo.log) + RecordCalls(sensor.answer(old(sensor.calls)), now)
      ensures old(repo.Tracks()) ==>
        repo.backend.Model()
        == Replay(old(repo.backend.Model()), RecordCalls(sensor.answer(old(sensor.calls)), now), repo.failing)
    {
      ghost var log0 := repo.log;
      ReplayAppend(repo.initial, log0, RecordCalls(sensor.answer(sensor.calls), now), repo.failing);
      var lux := sensor.ReadLux();
      if lux.Err? {
        return;
      }
      var reading := NewLightReading(lux.value, now);
      if reading.Err? {
        return;
      }
      var saved, err := repo.SaveReading(reading.value);
      if err.Fail? {
        return;
      }
    }

    /** Handles one tick of the run loop; a failed eviction is ignored. */
    method HandleTick(e: Event)
      requires repo.Valid() && !e.Cancel?
      modifies sensor, repo, repo.backend
      ensures repo.Valid() && (old(repo.Tracks()) ==> repo.Tracks())
      ensures sensor.calls == old(sensor.calls) + EventReads(e)
      ensures repo.log == old(repo.log) + EventCalls(e, sensor.answer, old(sensor.calls))
    {
      match e {
        case SampleTick(now) =>
          RecordOnce(now);
        case CleanupTick(now) =>
          var err := repo.DeleteOldReadings(RetentionPeriod, now);
      }
    }

    /**
     * Samples once at `startNow`, then handles `events` in order until a
     * cancellation: a sample tick samples again, a cleanup tick evicts the
     * readings older than the retention period. The interval must be
     * positive: Go's `time.NewTicker` panics on any other before the first sample.
     */
    method Start(startNow: Time, events: seq<Event>)
      requires interval > 0 && repo.Valid()
      modifies sensor, repo, repo.backend
      ensures repo.Valid() && (old(repo.Tracks()) ==> repo.Tracks())
      ensures sensor.calls == old(sensor.calls) + 1 + SampleTicks(events)
      ensures repo.log == old(repo.log) + StartCalls(startNow, events, sensor.answer, old(sensor.calls))
      ensures old(repo.Tracks()) ==>
        repo.backend.Model()
        == Replay(old(repo.backend.Model()), StartCalls(startNow, events, sensor.answer, old(sensor.calls)), repo.failing)
    {
      ghost var first := RecordCalls(sensor.answer(sensor.calls), startNow);
      ghost var rest := RunCalls(events, sensor.answer, sensor.calls + 1);
      ghost var log0 := repo.log;
      RecordOnce(startNow);
      ghost var log1 := repo.log;
      Run(events);
      assert log0 + (first + rest) == log1 + rest;
      ReplayAppend(repo.initial, log0, first + rest, repo.failing);
    }

    /** The loop of Start after its immediate sample. */
    method Run(events: seq<Event>)
      requires repo.Valid()
      modifies sensor, repo, repo.backend
      ensures repo.Valid() && (old(repo.Tracks()) ==> repo.Tracks())
      ensures sensor.calls == old(sensor.calls) + SampleTicks(events)
      ensures repo.log == old(repo.log) + RunCalls(events, sensor.answer, old(sensor.calls))
    {
      ghost var log0, k0 := repo.log, sensor.calls;
      ghost var total := RunCalls(events, sensor.answer, k0);
      assert events[0..] == events;
      var i := 0;
      while i < |events| && !events[i].Cancel?
        invariant 0 <= i <= |events|
        invariant repo.Valid() && (old(repo.Tracks()) ==> repo.Tracks())
        invariant sensor.calls + SampleTicks(events[i..]) == k0 + SampleTicks(events)
        invariant repo.log + RunCalls(events[i..], sensor.answer, sensor.calls) == log0 + total
      {
        ghost var now := EventCalls(events[i], sensor.answer, sensor.calls);
        ghost var rest := RunCalls(events[i + 1..], sensor.answer, sensor.calls + EventReads(events[i]));
        ghost var logBefore := repo.log;
        RunCallsAt(events, i, sensor.answer, sensor.calls);
        assert logBefore + (now + rest) == log0 + total;
        HandleTick(events[i]);
        assert repo.log == logBefore + now;
        assert rest == RunCalls(events[i + 1..], sensor.answer, sensor.calls);
        assert logBefore + (now + rest) == repo.log + rest;
        i := i + 1;
      }
      RunCallsStop(events, i, sensor.answer, sensor.calls);
    }
  }
}
