/**
 * End-to-end runs of the handler over a fresh in-memory repository and a
 * fake sensor fixed at 500 lux, as the handler's own test suite
 * (internal/adapters/grpc/handler_test.go) sets them up.
 */
module Scenarios {
  import opened Domain
  import Memory
  import opened RepositoryPort
  import opened Ports
  import Mock
  import opened Grpc

  /** A handler over an empty store that never fails and a sensor that always reads 500 lux. */
  method NewTestHandler() returns (handler: LightServiceHandler)
    ensures fresh(handler) && fresh(handler.repo) && fresh(handler.repo.backend) && fresh(handler.sensor)
    ensures handler.repo.Valid() && handler.repo.failing == {}
    ensures handler.repo.backend.readings == map[] && handler.repo.backend.nextID == 1
    ensures handler.sensor.calls == 0
    ensures forall k: nat :: handler.sensor.answer(k) == Ok(500.0)
  {
    var backend := new Memory.ReadingRepository();
    var repo := new Repository(backend, {});
    var fake := Mock.NewFakeSensor(500.0, 0.0);
    var sensor := new LightSensor(fake.Answers((k: nat) => 0.5));
    forall k: nat
      ensures sensor.answer(k) == Ok(500.0)
    {
      Mock.ZeroVariationIsExact(500.0, 0.5);
    }
    handler := new LightServiceHandler(repo, sensor);
  }

  /** With nothing stored, the current light is a fresh 500 lux sensor reading. */
  method CurrentLightWithNoReadings(now: Time) returns (resp: Reply<ProtoReading>)
    ensures resp == Reply(ProtoReading(1, 500.0, UnixSeconds(now), "Medium Light"))
  {
    var handler := NewTestHandler();
    resp := handler.GetCurrentLight(now);
  }

  /** A recorded 100 lux reading is then served as the current light, in the Low category. */
  method RecordThenGetCurrent(recordedAt: Time, askedAt: Time) returns (recorded: Reply<ProtoReading>, current: Reply<ProtoReading>)
    ensures recorded == Reply(ProtoReading(1, 100.0, UnixSeconds(recordedAt), "Low Light"))
    ensures current == recorded
  {
    var handler := NewTestHandler();
    recorded := handler.RecordReading(100.0, recordedAt);
    current := handler.GetCurrentLight(askedAt);
  }

  /** Negative lux is refused with InvalidArgument and the message of ErrInvalidLux. */
  method RecordNegativeLux(now: Time) returns (resp: Reply<ProtoReading>)
    ensures resp == Status(InvalidArgument, "lux value cannot be negative")
  {
    var handler := NewTestHandler();
    resp := handler.RecordReading(-10.0, now);
  }

  /** The test handler after recording 300 lux at `t1` and then 600 lux at `t2`. */
  method SeedTwoReadings(t1: Time, t2: Time) returns (handler: LightServiceHandler)
    requires t1 <= t2
    ensures fresh(handler) && fresh(handler.repo) && fresh(handler.repo.backend) && fresh(handler.sensor)
    ensures handler.repo.Valid() && handler.repo.failing == {}
    ensures handler.repo.backend.readings == map[1 := LightReading(1, 300.0, t1), 2 := LightReading(2, 600.0, t2)]
  {
    handler := NewTestHandler();
    var first := handler.RecordReading(300.0, t1);
    var second := handler.RecordReading(600.0, t2);
  }

  /**
   * Two readings recorded at `t1` and `t2` after the clock reading `now` are
   * both found in the whole-second history from a minute before `now` to a
   * minute after it, with their statistics. The recordings take less than
   * 59 seconds; the missing second covers the rounding of the bounds.
   */
  method HistoryOfTwoReadings(now: Time, t1: Time, t2: Time) returns (resp: Reply<HistoryResponse>)
    requires now <= t1 <= t2 < now + 59 * NanosPerSecond
    ensures resp.Reply? && |resp.body.readings| == 2
    ensures resp.body.averageLux == 450.0 && resp.body.minLux == 300.0 && resp.body.maxLux == 600.0
  {
    var handler := SeedTwoReadings(t1, t2);
    var startSec := UnixSeconds(now - 60 * NanosPerSecond);
    var endSec := UnixSeconds(now + 60 * NanosPerSecond);
    resp := handler.GetHistory(startSec, endSec);
    TwoReadingsHistory(t1, t2, handler.repo.backend.readings, FromUnix(startSec), FromUnix(endSec), resp.body);
  }

  /** What a history response over the two seeded readings must hold. */
  lemma TwoReadingsHistory(t1: Time, t2: Time, m: map<int, LightReading>, start: Time, end: Time, body: HistoryResponse)
    requires m == map[1 := LightReading(1, 300.0, t1), 2 := LightReading(2, 600.0, t2)]
    requires start < t1 < end && start < t2 < end
    requires exists rs ::
      && Memory.IsRangeResult(m, start, end, rs)
      && |body.readings| == |rs|
      && (forall i :: 0 <= i < |rs| ==> body.readings[i] == ConvertReadingToProto(rs[i]))
      && IsStatisticsOf(rs, Statistics(body.averageLux, body.minLux, body.maxLux))
    ensures |body.readings| == 2
    ensures body.averageLux == 450.0 && body.minLux == 300.0 && body.maxLux == 600.0
  {
    var st := Statistics(body.averageLux, body.minLux, body.maxLux);
    var rs :| Memory.IsRangeResult(m, start, end, rs) && |body.readings| == |rs| && IsStatisticsOf(rs, st);
    RangeOfTwo(m, start, end, rs, LightReading(1, 300.0, t1), LightReading(2, 600.0, t2));
    StatisticsExample(rs, st);
  }

  /** A range over a store of two readings, both inside it, returns the two in some order. */
  lemma RangeOfTwo(m: map<int, LightReading>, start: Time, end: Time, rs: seq<LightReading>, a: LightReading, b: LightReading)
    requires a.id != b.id && m == map[a.id := a, b.id := b]
    requires start < a.timestamp < end && start < b.timestamp < end
    requires Memory.IsRangeResult(m, start, end, rs)
    ensures rs == [a, b] || rs == [b, a]
  {
    forall x
      ensures x in Memory.InRange(m, start, end) <==> x == a || x == b
    {
      Memory.InRangeMembers(m, start, end, x);
      if x in m.Values {
        var k := Memory.KeyOf(m, x);
      }
      assert m[a.id] == a && m[b.id] == b;
    }
    assert Memory.InRange(m, start, end) == {a, b};
    assert multiset({a, b}) == multiset{a, b};
    assert |rs| == |multiset(rs)| == 2;
    assert rs[0] in multiset(rs) && rs[1] in multiset(rs);
    assert rs == [rs[0], rs[1]];
    if rs[0] == rs[1] {
      assert false;
    }
  }
}
