/**
 * The light reading entity, its classifier and the domain error values
 * (internal/domain/reading.go, internal/domain/errors.go).
 *
 * Times are integers counting nanoseconds since the Unix epoch, as a Go
 * `time.Time` does at its finest resolution; a duration is an integer number
 * of nanoseconds, as a Go `time.Duration` is. Lux is a `real`.
 */
module Domain {

  type Time = int
  type Duration = int

  const NanosPerSecond: int := 1_000_000_000
  const Hour: Duration := 3600 * NanosPerSecond

  /** Thresholds of the classifier, in lux. */
  const LowLightBound: real := 200.0
  const HighLightBound: real := 2500.0

  /**
   * The error values of the domain, plus the I/O failure of a storage backend.
   * `StorageError` has no counterpart among the domain's errors; its text is
   * this model's own and never reaches a reply.
   */
  datatype Error =
    | ErrInvalidLux
    | ErrReadingNotFound
    | ErrSensorUnavailable
    | StorageError
  {
    /** The text a Go `err.Error()` gives for the value. */
    function Message(): (s: string)
      ensures |s| > 0
    {
      match this
      case ErrInvalidLux => "lux value cannot be negative"
      case ErrReadingNotFound => "reading not found"
      case ErrSensorUnavailable => "sensor unavailable"
      case StorageError => "storage error"
    }
  }

  /** A value or the error that took its place (Go's `(T, error)` pair). */
  datatype Result<+T> = Ok(value: T) | Err(error: Error)

  /** The lone `error` a Go operation returns: nil (`Pass`) or an error. */
  datatype Outcome = Pass | Fail(error: Error)

  /** The three categories, in increasing order of light. */
  datatype Category = Low | Medium | High
  {
    function Rank(): (n: nat)
      ensures n < 3
    {
      match this
      case Low => 0
      case Medium => 1
      case High => 2
    }
  }

  /** A single light measurement; `id == 0` means "not saved yet". */
  datatype LightReading = LightReading(id: int, lux: real, timestamp: Time)
  {
    /** Below 200 lux. */
    predicate IsLowLight()
    {
      lux < LowLightBound
    }

    /** From 200 lux up to, but not including, 2500 lux. */
    predicate IsMediumLight()
    {
      LowLightBound <= lux < HighLightBound
    }

    /** 2500 lux or more. */
    predicate IsHighLight()
    {
      lux >= HighLightBound
    }

    /** The category whose predicate holds, checked Low first, then Medium. */
    function Classify(): (c: Category)
      ensures c == Low <==> IsLowLight()
      ensures c == Medium <==> IsMediumLight()
      ensures c == High <==> IsHighLight()
    {
      if IsLowLight() then Low
      else if IsMediumLight() then Medium
      else High
    }

    /** The human-readable category of the reading. */
    function LightCategory(): (s: string)
      ensures s == "Low Light" <==> IsLowLight()
      ensures s == "Medium Light" <==> IsMediumLight()
      ensures s == "High Light" <==> IsHighLight()
      ensures s == CategoryName(Classify())
    {
      if IsLowLight() then "Low Light"
      else if IsMediumLight() then "Medium Light"
      else "High Light"
    }
  }

  function CategoryName(c: Category): string
  {
    match c
    case Low => "Low Light"
    case Medium => "Medium Light"
    case High => "High Light"
  }

  /**
   * Builds an unsaved reading stamped `now` (the source reads the clock
   * itself); negative lux is refused with ErrInvalidLux.
   */
  function NewLightReading(lux: real, now: Time): (r: Result<LightReading>)
    ensures r.Err? <==> lux < 0.0
    ensures r.Err? ==> r.error == ErrInvalidLux
    ensures r.Ok? ==> r.value.lux == lux && r.value.id == 0 && r.value.timestamp == now
  {
    if lux < 0.0 then Err(ErrInvalidLux)
    else Ok(LightReading(0, lux, now))
  }

  /** Zero lux is a valid reading; -10 is not. */
  lemma NewLightReadingExamples(now: Time)
    ensures NewLightReading(0.0, now) == Ok(LightReading(0, 0.0, now))
    ensures NewLightReading(500.0, now).Ok?
    ensures NewLightReading(-10.0, now) == Err(ErrInvalidLux)
  {
  }

  /** Exactly one of the three predicates holds for every reading. */
  lemma ExactlyOneCategory(r: LightReading)
    ensures r.IsLowLight() || r.IsMediumLight() || r.IsHighLight()
    ensures !(r.IsLowLight() && r.IsMediumLight())
    ensures !(r.IsLowLight() && r.IsHighLight())
    ensures !(r.IsMediumLight() && r.IsHighLight())
  {
  }

  /** A boundary value belongs to the higher category. */
  lemma BoundariesGoUp(id: int, now: Time)
    ensures LightReading(id, 199.0, now).IsLowLight()
    ensures LightReading(id, 200.0, now).Classify() == Medium
    ensures !LightReading(id, 200.0, now).IsLowLight()
    ensures LightReading(id, 2500.0, now).Classify() == High
    ensures LightReading(id, 100.0, now).LightCategory() == "Low Light"
    ensures LightReading(id, 500.0, now).LightCategory() == "Medium Light"
    ensures LightReading(id, 3000.0, now).LightCategory() == "High Light"
  {
  }

  /** More light never gives a lower category. */
  lemma ClassifyMonotone(a: LightReading, b: LightReading)
    requires a.lux <= b.lux
    ensures a.Classify().Rank() <= b.Classify().Rank()
  {
  }

  /** The category depends on the lux alone. */
  lemma ClassifyDependsOnLuxOnly(a: LightReading, b: LightReading)
    requires a.lux == b.lux
    ensures a.LightCategory() == b.LightCategory()
  {
  }

  /** No two errors share a text, so a caller can tell them apart by their message. */
  lemma MessageIdentifiesError(a: Error, b: Error)
    ensures a.Message() == b.Message() <==> a == b
  {
  }
}
