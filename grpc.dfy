/**
 * The request handler of the light service (internal/adapters/grpc/handler.go).
 *
 * A request arrives as a method call and its answer is a `Reply`: either a
 * response message or a status error with a gRPC code and a message. The
 * transport, the protobuf encoding and the logging are not modelled.
 */
module Grpc {
  import opened Domain
  import Memory
  import opened RepositoryPort
  import opened Ports

  /** The gRPC status codes the handler reports. */
  datatype Code = InvalidArgument | Internal

  /** A response message, or the status error that replaces it. */
  datatype Reply<T> = Reply(body: T) | Status(code: Code, message: string)

  /** The wire form of a reading: the timestamp in whole Unix seconds. */
  datatype ProtoReading = ProtoReading(id: int, lux: real, timestamp: int, category: string)

  datatype HistoryResponse = HistoryResponse(readings: seq<ProtoReading>, averageLux: real, minLux: real, maxLux: real)

  datatype Statistics = Statistics(average: real, min: real, max: real)

  /** The instant `sec` whole seconds after the epoch (Go's `time.Unix(sec, 0)`). */
  function FromUnix(sec: int): (t: Time)
    ensures t % NanosPerSecond == 0 && t / NanosPerSecond == sec
  {
    sec * NanosPerSecond
  }

  /** The whole seconds since the epoch, rounded down (Go's `Time.Unix()`). */
  function UnixSeconds(t: Time): (sec: int)
    ensures FromUnix(sec) <= t < FromUnix(sec + 1)
  {
    t / NanosPerSecond
  }

  /** Whole seconds survive the trip to an instant and back. */
  lemma UnixRoundTrip(sec: int)
    ensures UnixSeconds(FromUnix(sec)) == sec
  {
  }

  /** A later instant never has fewer whole seconds. */
  lemma UnixSecondsMonotone(a: Time, b: Time)
    requires a <= b
    ensures UnixSeconds(a) <= UnixSeconds(b)
  {
  }

  /** The wire form of a reading, with its category name and its second. */
  function ConvertReadingToProto(r: LightReading): (p: ProtoReading)
    ensures p.id == r.id && p.lux == r.lux
    ensures p.category == CategoryName(r.Classify())
    ensures FromUnix(p.timestamp) <= r.timestamp < FromUnix(p.timestamp + 1)
  {
    ProtoReading(r.id, r.lux, UnixSeconds(r.timestamp), r.LightCategory())
  }

  /** The readings converted one by one, in order. */
  method ConvertAll(readings: seq<LightReading>) returns (protos: seq<ProtoReading>)
    ensures |protos| == |readings|
    ensures forall i :: 0 <= i < |readings| ==> protos[i] == ConvertReadingToProto(readings[i])
  {
    protos := [];
    for i := 0 to |readings|
      invariant |protos| == i
      invariant forall j :: 0 <= j < i ==> protos[j] == ConvertReadingToProto(readings[j])
    {
      protos := protos + [ConvertReadingToProto(readings[i])];
    }
  }

  /** The sum of the lux values. */
  function SumLux(rs: seq<LightReading>): real
    decreases |rs|
  {
    if rs == [] then 0.0 else SumLux(rs[..|rs| - 1]) + rs[|rs| - 1].lux
  }

  /** The lux values, in order. */
  function Luxes(rs: seq<LightReading>): (xs: seq<real>)
    ensures |xs| == |rs| && forall i :: 0 <= i < |rs| ==> xs[i] == rs[i].lux
  {
    seq(|rs|, i requires 0 <= i < |rs| => rs[i].lux)
  }

  /**
   * `st` summarises `rs`: all zero for no readings; otherwise the mean lux,
   * and a least and a greatest lux that some reading has.
   */
  ghost predicate IsStatisticsOf(rs: seq<LightReading>, st: Statistics)
  {
    if rs == [] then st == Statistics(0.0, 0.0, 0.0)
    else
      && st.average == SumLux(rs) / (|rs| as real)
      && st.min in Luxes(rs) && st.max in Luxes(rs)
      && (forall i :: 0 <= i < |rs| ==> st.min <= rs[i].lux <= st.max)
  }

  /** The sum lies between the count times any lower and any upper bound of the values. */
  lemma {:induction false} SumBetween(rs: seq<LightReading>, lo: real, hi: real)
    requires forall i :: 0 <= i < |rs| ==> lo <= rs[i].lux <= hi
    ensures (|rs| as real) * lo <= SumLux(rs) <= (|rs| as real) * hi
    decreases |rs|
  {
    if rs != [] {
      var init := rs[..|rs| - 1];
      assert forall i :: 0 <= i < |init| ==> init[i] == rs[i];
      SumBetween(init, lo, hi);
    }
  }

  /** The average of a non-empty batch lies between its minimum and its maximum. */
  lemma AverageBetween(rs: seq<LightReading>, st: Statistics)
    requires rs != [] && IsStatisticsOf(rs, st)
    ensures st.min <= st.average <= st.max
  {
    SumBetween(rs, st.min, st.max);
    QuotientBetween(SumLux(rs), |rs| as real, st.min, st.max);
  }

  /** Dividing by a positive count keeps a bounded total within the bounds. */
  lemma QuotientBetween(total: real, n: real, lo: real, hi: real)
    requires n > 0.0 && n * lo <= total <= n * hi
    ensures lo <= total / n <= hi
  {
    var q := total / n;
    assert total - n * lo == n * (q - lo);
    assert n * hi - total == n * (hi - q);
    NonNegativeFactor(n, q - lo);
    NonNegativeFactor(n, hi - q);
  }

  lemma NonNegativeFactor(n: real, d: real)
    requires n > 0.0 && n * d >= 0.0
    ensures d >= 0.0
  {
  }

  /** The summary of a batch is unique. */
  lemma StatisticsUnique(rs: seq<LightReading>, a: Statistics, b: Statistics)
    requires IsStatisticsOf(rs, a) && IsStatisticsOf(rs, b)
    ensures a == b
  {
    if rs != [] {
      var xs := Luxes(rs);
      var i :| 0 <= i < |xs| && xs[i] == a.min;
      var j :| 0 <= j < |xs| && xs[j] == b.min;
      var k :| 0 <= k < |xs| && xs[k] == a.max;
      var l :| 0 <= l < |xs| && xs[l] == b.max;
      assert a.min <= rs[j].lux && b.min <= rs[i].lux;
      assert a.max >= rs[l].lux && b.max >= rs[k].lux;
    }
  }

  /** Readings of 300 and 600 lux, in either order, average 450, with minimum 300 and maximum 600. */
  lemma StatisticsExample(rs: seq<LightReading>, st: Statistics)
    requires |rs| == 2
    requires (rs[0].lux, rs[1].lux) == (300.0, 600.0) || (rs[0].lux, rs[1].lux) == (600.0, 300.0)
    requires IsStatisticsOf(rs, st)
    ensures st == Statistics(450.0, 300.0, 600.0)
  {
    assert rs[..1][..0] == [];
    assert SumLux(rs[..1]) == rs[0].lux;
    assert SumLux(rs) == 900.0;
  }

  /**
   * The summary of a batch of readings: all zero when there are none;
   * otherwise the mean, the minimum and the maximum lux.
   */
  method CalculateStatistics(readings: seq<LightReading>) returns (st: Statistics)
    ensures IsStatisticsOf(readings, st)
    ensures readings != [] ==> st.min <= st.average <= st.max
  {
    if |readings| == 0 {
      return Statistics(0.0, 0.0, 0.0);
    }
    var sum := 0.0;
    var min := readings[0].lux;
    var max := readings[0].lux;
    ghost var xs := Luxes(readings);
    assert xs[0] == min;
    for i := 0 to |readings|
      invariant sum == SumLux(readings[..i])
      invariant min in xs && max in xs
      invariant min <= readings[0].lux <= max
      invariant forall j :: 0 <= j < i ==> min <= readings[j].lux <= max
    {
      assert readings[..i + 1][..i] == readings[..i];
      sum := sum + readings[i].lux;
      if readings[i].lux < min {
        min := readings[i].lux;
        assert xs[i] == min;
      }
      if readings[i].lux > max {
        max := readings[i].lux;
        assert xs[i] == max;
      }
    }
    assert readings[..|readings|] == readings;
    st := Statistics(sum / (|readings| as real), min, max);
    AverageBetween(readings, st);
  }

  class LightServiceHandler {
    const repo: Repository
    const sensor: LightSensor

    /** The source's NewLightServiceHandler. */
    constructor (repo: Repository, sensor: LightSensor)
      ensures this.repo == repo && this.sensor == sensor
    {
      this.repo := repo;
      this.sensor := sensor;
    }

    /**
     * The most recent reading. When nothing is stored yet the sensor is read
     * once and the new reading saved for next time; a failed save does not
     * fail the request.
     */
    method GetCurrentLight(now: Time) returns (resp: Reply<ProtoReading>)
      requires repo.Valid()
      modifies repo, repo.backend, sensor
      ensures repo.Valid() && (old(repo.Tracks()) ==> repo.Tracks())
      // the latest reading cannot be fetched
      ensures LatestOp in repo.failing ==>
        && resp == Status(Internal, "failed to get reading")
        && repo.log == old(repo.log) + [LatestCall]
        && sensor.calls == old(sensor.calls)
        && repo.backend.Model() == old(repo.backend.Model())
      // a stored reading is served, and the sensor is not read
      ensures LatestOp !in repo.failing && old(repo.backend.readings) != map[] ==>
        && (exists r :: Memory.IsLatest(old(repo.backend.readings), r) && resp == Reply(ConvertReadingToProto(r)))
        && repo.log == old(repo.log) + [LatestCall]
        && sensor.calls == old(sensor.calls)
        && repo.backend.Model() == old(repo.backend.Model())
      // nothing is stored: the sensor is read once
      ensures LatestOp !in repo.failing && old(repo.backend.readings) == map[] ==>
        var answer := sensor.answer(old(sensor.calls));
        && sensor.calls == old(sensor.calls) + 1
        && (answer.Err? ==>
              && resp == Status(Internal, "failed to read sensor")
              && repo.log == old(repo.log) + [LatestCall]
              && repo.backend.Model() == old(repo.backend.Model()))
        && (answer.Ok? && answer.value < 0.0 ==>
              && resp == Status(Internal, "failed to create reading")
              && repo.log == old(repo.log) + [LatestCall]
              && repo.backend.Model() == old(repo.backend.Model()))
        && (answer.Ok? && answer.value >= 0.0 ==>
              var taken := LightReading(0, answer.value, now);
              var id := if SaveOp in repo.failing then 0 else old(repo.backend.nextID);
              && resp == Reply(ConvertReadingToProto(taken.(id := id)))
              && repo.log == old(repo.log) + [LatestCall, SaveCall(taken)]
              && repo.backend.Model() == Apply(old(repo.backend.Model()), SaveCall(taken), repo.failing))
    {
      var latest := repo.GetLatestReading();
      if latest.Err? && latest.error == ErrReadingNotFound {
        var lux := sensor.ReadLux();
        if lux.Err? {
          return Status(Internal, "failed to read sensor");
        }
        var reading := NewLightReading(lux.value, now);
        if reading.Err? {
          return Status(Internal, "failed to create reading");
        }
        var saved, err := repo.SaveReading(reading.value);
        // a failed save is only logged: the caller still gets the reading
        return Reply(ConvertReadingToProto(saved));
      } else if latest.Err? {
        return Status(Internal, "failed to get reading");
      }
      resp := Reply(ConvertReadingToProto(latest.value));
    }

    /**
     * The readings strictly between two instants given in Unix seconds,
     * oldest first, with their statistics.
     */
    method GetHistory(startTime: int, endTime: int) returns (resp: Reply<HistoryResponse>)
      requires repo.Valid()
      modifies repo
      ensures repo.Valid() && (old(repo.Tracks()) ==> repo.Tracks())
      ensures repo.log == old(repo.log) + [RangeCall(FromUnix(startTime), FromUnix(endTime))]
      ensures RangeOp in repo.failing ==> resp == Status(Internal, "failed to get readings")
      ensures RangeOp !in repo.failing ==>
        && resp.Reply?
        && (exists rs ::
              && Memory.IsRangeResult(repo.backend.readings, FromUnix(startTime), FromUnix(endTime), rs)
              && |resp.body.readings| == |rs|
              && (forall i :: 0 <= i < |rs| ==> resp.body.readings[i] == ConvertReadingToProto(rs[i]))
              && IsStatisticsOf(rs, Statistics(resp.body.averageLux, resp.body.minLux, resp.body.maxLux)))
      ensures resp.Reply? ==>
        forall i, j :: 0 <= i < j < |resp.body.readings| ==>
          resp.body.readings[i].timestamp <= resp.body.readings[j].timestamp
    {
      var start := FromUnix(startTime);
      var end := FromUnix(endTime);
      var readings := repo.GetReadingsInRange(start, end);
      if readings.Err? {
        return Status(Internal, "failed to get readings");
      }
      var protos := ConvertAll(readings.value);
      var stats := CalculateStatistics(readings.value);
      resp := Reply(HistoryResponse(protos, stats.average, stats.min, stats.max));
      forall i, j | 0 <= i < j < |protos|
        ensures protos[i].timestamp <= protos[j].timestamp
      {
        UnixSecondsMonotone(readings.value[i].timestamp, readings.value[j].timestamp);
      }
    }

    /**
     * Saves a reading of `lux` taken at `now` and answers it with its
     * assigned ID; negative lux is refused before anything is saved.
     */
    method RecordReading(lux: real, now: Time) returns (resp: Reply<ProtoReading>)
      requires repo.Valid()
      modifies repo, repo.backend
      ensures repo.Valid() && (old(repo.Tracks()) ==> repo.Tracks())
      ensures lux < 0.0 ==>
        && resp == Status(InvalidArgument, ErrInvalidLux.Message())
        && repo.log == old(repo.log)
        && repo.backend.Model() == old(repo.backend.Model())
      ensures lux >= 0.0 ==>
        && repo.log == old(repo.log) + [SaveCall(LightReading(0, lux, now))]
        && repo.backend.Model() == Apply(old(repo.backend.Model()), SaveCall(LightReading(0, lux, now)), repo.failing)
      ensures lux >= 0.0 && SaveOp in repo.failing ==> resp == Status(Internal, "failed to save reading")
      ensures lux >= 0.0 && SaveOp !in repo.failing ==>
        && resp == Reply(ConvertReadingToProto(LightReading(old(repo.backend.nextID), lux, now)))
        && repo.backend.readings[old(repo.backend.nextID)] == LightReading(old(repo.backend.nextID), lux, now)
    {
      var reading := NewLightReading(lux, now);
      if reading.Err? {
        return Status(InvalidArgument, reading.error.Message());
      }
      var saved, err := repo.SaveReading(reading.value);
      if err.Fail? {
        return Status(Internal, "failed to save reading");
      }
      resp := Reply(ConvertReadingToProto(saved));
    }
  }
}
