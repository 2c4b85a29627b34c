/**
 * The simulated light sensor (internal/adapters/mock/fake_sensor.go).
 *
 * The sensor draws a uniform random number in [0, 1) on every read; here the
 * draw is a parameter, so a read is a function of the sensor and the draw.
 */
module Mock {
  import opened Domain
  import Ports

  /** A sensor whose reads spread around `baseValue` by up to `variation`. */
  datatype FakeSensor = FakeSensor(baseValue: real, variation: real)
  {
    /** The simulated value before it is clamped at zero. */
    function Unclamped(draw: real): (lux: real)
      ensures lux - baseValue == (2.0 * draw - 1.0) * variation
      ensures 0.0 <= draw < 1.0 && variation > 0.0 ==> baseValue - variation <= lux < baseValue + variation
      ensures 0.0 <= draw < 1.0 && variation >= 0.0 ==> baseValue - variation <= lux <= baseValue + variation
    {
      baseValue + (draw - 0.5) * 2.0 * variation
    }

    /** One read: the simulated value, or zero when that is negative; never an error. */
    function ReadLux(draw: real): (r: Result<real>)
      ensures r.Ok? && r.value >= 0.0
      ensures Unclamped(draw) >= 0.0 ==> r.value == Unclamped(draw)
      ensures Unclamped(draw) < 0.0 ==> r.value == 0.0
    {
      var lux := Unclamped(draw);
      if lux < 0.0 then Ok(0.0) else Ok(lux)
    }

    /** Releasing the sensor always succeeds. */
    function Close(): (err: Outcome)
      ensures err == Pass
    {
      Pass
    }

    /** The sensor as the port sees it, reading the k-th draw on its k-th read. */
    function Answers(draws: nat -> real): (answer: nat -> Result<real>)
      ensures forall k: nat :: answer(k) == ReadLux(draws(k))
      ensures forall k: nat :: answer(k).Ok? && answer(k).value >= 0.0
    {
      (k: nat) => ReadLux(draws(k))
    }
  }

  function NewFakeSensor(baseValue: real, variation: real): (s: FakeSensor)
    ensures s.baseValue == baseValue && s.variation == variation
  {
    FakeSensor(baseValue, variation)
  }

  /** A draw in [0, 1) keeps the simulated value in [base - variation, base + variation). */
  lemma UnclampedWithinVariation(s: FakeSensor, draw: real)
    requires 0.0 <= draw < 1.0 && s.variation > 0.0
    ensures s.baseValue - s.variation <= s.Unclamped(draw) < s.baseValue + s.variation
  {
    assert s.Unclamped(draw) - s.baseValue == (2.0 * draw - 1.0) * s.variation;
  }

  /** Every read lies between the clamped ends of the interval around the base value. */
  lemma ReadWithinVariation(s: FakeSensor, draw: real)
    requires 0.0 <= draw < 1.0 && s.variation >= 0.0
    ensures s.ReadLux(draw).value >= s.baseValue - s.variation
    ensures s.ReadLux(draw).value <= (if s.baseValue + s.variation < 0.0 then 0.0 else s.baseValue + s.variation)
  {
    assert s.Unclamped(draw) - s.baseValue == (2.0 * draw - 1.0) * s.variation;
    assert -s.variation <= (2.0 * draw - 1.0) * s.variation <= s.variation;
  }

  /** Without variation, a non-negative base value is read back exactly, whatever the draw. */
  lemma ZeroVariationIsExact(base: real, draw: real)
    requires base >= 0.0
    ensures NewFakeSensor(base, 0.0).ReadLux(draw) == Ok(base)
  {
  }

  /**
   * A recorder reading this sensor saves exactly one reading per sample tick,
   * since every read is a valid lux.
   */
  lemma RecorderAlwaysSaves(s: FakeSensor, draws: nat -> real, events: seq<Ports.Event>, k: nat)
    ensures Ports.CountSaves(Ports.RunCalls(events, s.Answers(draws), k)) == Ports.SampleTicks(events)
  {
    Ports.EverySampleSaves(events, s.Answers(draws), k);
  }
}
