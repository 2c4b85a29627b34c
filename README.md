# Light service of plant-monitor, modelled in Dafny

The light service takes light readings from a sensor, stores them and serves
them over gRPC. A light reading holds an ID, a lux value and a timestamp. Its
category is Low (< 200 lux), Medium (200 up to but not including 2500 lux) or
High (2500 lux or more).

A background recorder samples the sensor periodically. Every 24 hours it also
evicts readings older than 30 days. The request handler answers three
requests:
- GetCurrentLight: the latest reading. If nothing is stored yet, it reads the
  sensor and saves a reading.
- GetHistory: the readings in a time range, sorted, with their mean, minimum
  and maximum.
- RecordReading: saves a reading sent by the caller.

The model has one module per part of the service:

- `Domain` (`domain.dfy`): the reading entity, its classifier, the
  constructor that rejects negative lux, and the domain errors.
- `Memory` (`memory.dfy`): the in-memory repository.
  - It is a class with a map from ID to reading and an ID counter.
  - Saves give unsaved readings (ID 0) the next ID.
  - The range query filters the map and then sorts the result in place on an
    array (insertion sort).
  - Abstract functions on a `Store` or its map (`Saved`, `Evicted`,
    `InRange`, `IsLatest`) specify each method, and lemmas prove their properties.
- `RepositoryPort` (`repository.dfy`): the storage port that the recorder and
  the handler call.
  - It is a class that forwards to the in-memory repository.
  - It can be told that some operations fail with a storage error, as a
    database backend's I/O can.
  - It keeps a ghost log of every call. `Replay` of the log gives the state of
    the store (`Tracks`).
- `Ports` (`ports.dfy`): the sensor port and the recorder.
  - The sensor's k-th answer is a parameter.
  - The recorder's tickers and its cancellation are a finite sequence of
    events.
  - `RunCalls` is the reference definition of which port calls a run makes.
- `Mock` (`mock.dfy`): the fake sensor. Its random draw is a parameter.
- `Grpc` (`grpc.dfy`): the handler, the conversion of a reading to its wire
  form, and the statistics.
- `Scenarios` (`scenarios.dfy`): the handler test suite's runs, on a fresh
  repository and a sensor fixed at 500 lux.

Time is an integer count of nanoseconds since the Unix epoch and a duration
is an integer count of nanoseconds. `Time.Unix()` becomes `UnixSeconds`
(floor division by 10^9) and `time.Unix(s, 0)` becomes `FromUnix`. Every call
that reads the clock (`time.Now()`) takes the clock reading as a parameter
`now`. Lux, a Go `float64`, is a Dafny `real`.

## Model

Source paths are relative to the repository root.

| member | source | states |
|---|---|---|
| Domain.Error.Message | services/light-service/internal/domain/errors.go:5-14 | the text `err.Error()` gives for each of the three domain errors, never empty; the handler's InvalidArgument status carries it. The text of `StorageError`, which stands for a backend's I/O failure, is the model's own and never reaches a reply |
| Domain.MessageIdentifiesError | services/light-service/internal/domain/errors.go:5-14 | two errors have the same text exactly when they are the same error |
| Domain.NewLightReading | services/light-service/internal/domain/reading.go:16-26 | fails with ErrInvalidLux exactly when lux < 0; otherwise an unsaved reading (ID 0) with the given lux, stamped `now` |
| Domain.NewLightReadingExamples | services/light-service/internal/domain/reading_test.go:7-51 | 0 and 500 lux are accepted, and 0 lux gives the reading (0, 0, now); -10 lux is refused with ErrInvalidLux |
| Domain.LightReading.IsLowLight | services/light-service/internal/domain/reading.go:28-32 | holds exactly when lux < 200 |
| Domain.LightReading.IsMediumLight | services/light-service/internal/domain/reading.go:34-38 | holds exactly when 200 <= lux < 2500 |
| Domain.LightReading.IsHighLight | services/light-service/internal/domain/reading.go:40-44 | holds exactly when lux >= 2500 |
| Domain.LightReading.Classify | services/light-service/internal/domain/reading.go:28-44 | the category is Low, Medium or High exactly when the predicate of the same name holds |
| Domain.LightReading.LightCategory | services/light-service/internal/domain/reading.go:46-54 | "Low Light", "Medium Light" or "High Light" exactly when the matching predicate holds; it is the name of the category |
| Domain.ExactlyOneCategory | services/light-service/internal/domain/reading.go:28-44 | for every reading exactly one of the three predicates holds |
| Domain.BoundariesGoUp | services/light-service/internal/domain/reading_test.go:53-92 | 199 lux is Low; 200 lux is Medium, not Low; 2500 lux is High; 100, 500 and 3000 lux are named Low, Medium and High Light |
| Domain.ClassifyMonotone | services/light-service/internal/domain/reading.go:28-54 | more lux never gives a lower category |
| Domain.ClassifyDependsOnLuxOnly | services/light-service/internal/domain/reading.go:46-54 | two readings with the same lux get the same name, whatever their ID and time |
| Memory.ReadingRepository.constructor | services/light-service/internal/adapters/memory/reading_repository.go:20-26 | a new repository is empty, its counter is 1, and it is well formed |
| Memory.EmptyStoreWellFormed | services/light-service/internal/adapters/memory/reading_repository.go:20-26 | the empty store with counter 1 is well formed and has issued no ID |
| Memory.ReadingRepository.SaveReading | services/light-service/internal/adapters/memory/reading_repository.go:28-42 | an unsaved reading gets the counter as its ID and the counter goes up by one; a saved reading keeps its ID and the counter stays; the map then holds the reading under its ID and every other entry is unchanged; a save never fails |
| Memory.SavePreserves | services/light-service/internal/adapters/memory/reading_repository.go:33-41 | saving keeps every reading under its own ID and 0 out of the keys; saving an unsaved or issued reading keeps all keys below the counter |
| Memory.FreshIdNeverOverwrites | services/light-service/internal/adapters/memory/reading_repository.go:33-41 | when all keys were issued, an unsaved reading's new ID is not yet a key, so the store grows by one |
| Memory.ResaveIsIdempotent | services/light-service/internal/adapters/memory/reading_repository.go:33-41 | saving a reading that is already stored under its ID changes nothing |
| Memory.ReadingRepository.GetReading | services/light-service/internal/adapters/memory/reading_repository.go:44-55 | the reading stored under the ID, or ErrReadingNotFound when there is none |
| Memory.CollectInRange | services/light-service/internal/adapters/memory/reading_repository.go:62-67 | the readings collected are exactly, as a multiset, the stored readings stamped strictly after start and strictly before end |
| Memory.SortInPlace | services/light-service/internal/adapters/memory/reading_repository.go:69-72 | the array ends sorted by timestamp and is a permutation of what it held |
| Memory.SortByTimestamp | services/light-service/internal/adapters/memory/reading_repository.go:69-72 | the result is sorted by timestamp and is a permutation of the input |
| Memory.ReadingRepository.GetReadingsInRange | services/light-service/internal/adapters/memory/reading_repository.go:57-75 | never fails; the result is the selected readings, each once, in timestamp order |
| Memory.InRangeMembers | services/light-service/internal/adapters/memory/reading_repository.go:63-66 | a reading is selected exactly when it is stored and start < timestamp < end |
| Memory.RangeResultMembers | services/light-service/internal/adapters/memory/reading_repository.go:63-66 | every reading in a range result is stored and strictly inside the interval, so neither end is ever returned |
| Memory.RangeResultComplete | services/light-service/internal/adapters/memory/reading_repository.go:62-74 | every stored reading strictly inside the interval appears in the result exactly once |
| Memory.RangeResultEmpty | services/light-service/internal/adapters/memory/reading_repository.go:62-74 | when no stored reading is strictly inside the interval, the result is empty |
| Memory.ReadingRepository.GetLatestReading | services/light-service/internal/adapters/memory/reading_repository.go:77-94 | fails, with ErrReadingNotFound, exactly when the map is empty; otherwise a stored reading that no stored reading is newer than |
| Memory.ReadingRepository.DeleteOldReadings | services/light-service/internal/adapters/memory/reading_repository.go:96-110 | with cutoff now - olderThan, a key stays exactly when its reading is not stamped before the cutoff; kept readings and the counter are unchanged; never fails |
| Memory.EvictPreserves | services/light-service/internal/adapters/memory/reading_repository.go:101-107 | eviction keeps the store well formed and its keys issued, adds no key, and keeps the counter |
| Memory.EvictIdempotent | services/light-service/internal/adapters/memory/reading_repository.go:101-107 | evicting twice with the same cutoff is evicting once |
| Memory.EvictExample | services/light-service/internal/adapters/memory/reading_repository.go:101-107 | with a 24-hour window, a reading 48 hours old is evicted and one 1 hour old is kept |
| RepositoryPort.Repository.SaveReading | services/light-service/internal/domain/repository.go:11-12 | the call is logged; on a failing backend, a storage error and nothing stored; otherwise the in-memory save, and the caller's reading gets its assigned ID |
| RepositoryPort.Repository.GetReading | services/light-service/internal/domain/repository.go:14-15 | the call is logged; a storage error, the stored reading, or ErrReadingNotFound |
| RepositoryPort.Repository.GetReadingsInRange | services/light-service/internal/domain/repository.go:17-19 | the call is logged; a storage error, or the strict range result of the in-memory store |
| RepositoryPort.Repository.GetLatestReading | services/light-service/internal/domain/repository.go:21-22 | the call is logged; a storage error, ErrReadingNotFound on an empty store, or a newest stored reading |
| RepositoryPort.Repository.DeleteOldReadings | services/light-service/internal/domain/repository.go:24-26 | the call is logged; a storage error that changes nothing, or the in-memory eviction |
| RepositoryPort.ReplayAppend | services/light-service/internal/domain/repository.go:10-27 | replaying two batches of port calls one after the other is replaying their concatenation |
| RepositoryPort.ReadsChangeNothing | services/light-service/internal/domain/repository.go:14-22 | a get, a range or a latest query leaves the store as it was |
| RepositoryPort.ReplayPreservesWellFormed | services/light-service/internal/domain/repository.go:10-27 | any sequence of port calls keeps the store well formed |
| Ports.LightSensor.ReadLux | services/light-service/internal/ports/sensor.go:9-11 | the k-th read returns the sensor's k-th answer |
| Ports.Recorder.constructor | services/light-service/internal/ports/reader.go:19-26 | the recorder holds the given sensor, repository and interval |
| Ports.RecordCalls | services/light-service/internal/ports/reader.go:64-82 | a sample makes at most one port call; it saves exactly when the sensor gave a value of at least 0 lux, and then it saves an unsaved reading of that value stamped `now` |
| Ports.Recorder.RecordOnce | services/light-service/internal/ports/reader.go:64-88 | reads the sensor once; the port calls are those of `RecordCalls` for that answer, and the store is their replay; a sensor error, a negative value or a failed save is swallowed |
| Ports.Recorder.HandleTick | services/light-service/internal/ports/reader.go:46-55 | a sample tick is one `RecordOnce`; a cleanup tick is one eviction with the 30-day window whose error is ignored |
| Ports.Recorder.Run | services/light-service/internal/ports/reader.go:44-60 | the event loop makes exactly the calls of `RunCalls` and reads the sensor once per sample tick before the cancellation |
| Ports.Recorder.Start | services/light-service/internal/ports/reader.go:30-61 | one sample at start, then the event loop: the log grows by `StartCalls`, the sensor is read 1 + (sample ticks) times, and the store is the replay of those calls |
| Ports.NothingAfterCancel | services/light-service/internal/ports/reader.go:56-58 | whatever follows a cancellation makes no call and is not counted |
| Ports.RunCallsShape | services/light-service/internal/ports/reader.go:44-60 | a run only saves unsaved readings of at least 0 lux and evicts with the 30-day window; it makes one eviction per cleanup tick and at most one save per sample tick |
| Ports.EverySampleSaves | services/light-service/internal/ports/reader.go:64-82 | when every answer is a value of at least 0 lux, there is exactly one save per sample tick |
| Mock.NewFakeSensor | services/light-service/internal/adapters/mock/fake_sensor.go:15-23 | the sensor holds the given base value and variation |
| Mock.FakeSensor.ReadLux | services/light-service/internal/adapters/mock/fake_sensor.go:25-38 | never an error and never negative; the simulated value when that is at least 0, else 0 |
| Mock.FakeSensor.Close | services/light-service/internal/adapters/mock/fake_sensor.go:40-43 | closing always succeeds |
| Mock.FakeSensor.Unclamped | services/light-service/internal/adapters/mock/fake_sensor.go:28-30 | the simulated value is the base plus the variation scaled by 2·draw − 1; for a draw in [0, 1) it lies in [base - variation, base + variation) when the variation is positive, and in [base - variation, base + variation] when it is non-negative |
| Mock.FakeSensor.Answers | services/light-service/internal/adapters/mock/fake_sensor.go:8-38 | as a port sensor it never answers an error and never a negative lux, whatever the draws; its k-th answer is the read of the k-th draw |
| Mock.UnclampedWithinVariation | services/light-service/internal/adapters/mock/fake_sensor.go:28-30 | for a positive variation and a draw in [0, 1), the simulated value lies in [base - variation, base + variation) |
| Mock.ReadWithinVariation | services/light-service/internal/adapters/mock/fake_sensor.go:28-35 | for a non-negative variation and a draw in [0, 1), a read is at least base - variation and at most base + variation clamped at 0 |
| Mock.ZeroVariationIsExact | services/light-service/internal/adapters/grpc/handler_test.go:24 | without variation, a non-negative base value is read back exactly, whatever the draw |
| Mock.RecorderAlwaysSaves | services/light-service/internal/adapters/mock/fake_sensor.go:32-37 | a recorder over the fake sensor saves exactly once per sample tick |
| Grpc.FromUnix | services/light-service/internal/adapters/grpc/handler.go:74-75 | `time.Unix(sec, 0)`: an instant on a whole-second boundary, exactly `sec` seconds after the epoch |
| Grpc.UnixSeconds | services/light-service/internal/adapters/grpc/handler.go:125 | the whole seconds are the floor: the instant lies in [sec, sec + 1) seconds |
| Grpc.UnixRoundTrip | services/light-service/internal/adapters/grpc/handler.go:74-75 | whole seconds survive `time.Unix` and then `Unix()` |
| Grpc.UnixSecondsMonotone | services/light-service/internal/adapters/grpc/handler.go:125 | a later instant never has fewer whole seconds |
| Grpc.ConvertReadingToProto | services/light-service/internal/adapters/grpc/handler.go:120-128 | same ID and lux; the category name of the reading's category; the timestamp is the second the instant falls in |
| Grpc.ConvertAll | services/light-service/internal/adapters/grpc/handler.go:83-87 | as many wire readings as readings, in the same order, each the conversion of its reading |
| Grpc.CalculateStatistics | services/light-service/internal/adapters/grpc/handler.go:137-162 | all zero for no readings; otherwise the mean lux, and a minimum and a maximum that bound every lux and are some reading's lux; the mean lies between them |
| Grpc.SumBetween | services/light-service/internal/adapters/grpc/handler.go:143-148 | the sum of n values within [lo, hi] lies within [n·lo, n·hi] |
| Grpc.AverageBetween | services/light-service/internal/adapters/grpc/handler.go:157-161 | the mean of a non-empty batch lies between its minimum and its maximum |
| Grpc.StatisticsUnique | services/light-service/internal/adapters/grpc/handler.go:137-162 | a batch has only one summary |
| Grpc.StatisticsExample | services/light-service/internal/adapters/grpc/handler_test.go:129-139 | 300 and 600 lux, in either order, summarise to mean 450, minimum 300 and maximum 600 |
| Grpc.LightServiceHandler.constructor | services/light-service/internal/adapters/grpc/handler.go:23-29 | the handler holds the given repository and sensor |
| Grpc.LightServiceHandler.GetCurrentLight | services/light-service/internal/adapters/grpc/handler.go:31-65 | a failing latest query gives Internal "failed to get reading" and reads no sensor; a stored reading is served as a newest one and the sensor is not read; on an empty store the sensor is read once: a sensor error gives Internal "failed to read sensor", a negative value gives Internal "failed to create reading", and otherwise the reading is saved and served with its assigned ID (ID 0 when the save failed) |
| Grpc.LightServiceHandler.GetHistory | services/light-service/internal/adapters/grpc/handler.go:67-98 | one range call with the bounds converted from Unix seconds; a failing range gives Internal "failed to get readings"; otherwise the reply is the converted range result in the same order and count, with its statistics and non-decreasing timestamps |
| Grpc.LightServiceHandler.RecordReading | services/light-service/internal/adapters/grpc/handler.go:100-118 | negative lux gives InvalidArgument with ErrInvalidLux's message and calls nothing; otherwise one save: a failing save gives Internal "failed to save reading", a successful one is answered with the reading under its new ID |
| Scenarios.NewTestHandler | services/light-service/internal/adapters/grpc/handler_test.go:20-25 | the test handler: an empty repository with counter 1, and a sensor whose every answer is 500 lux |
| Scenarios.CurrentLightWithNoReadings | services/light-service/internal/adapters/grpc/handler_test.go:52-70 | on an empty store the current light is 500 lux, "Medium Light", saved under ID 1 |
| Scenarios.RecordThenGetCurrent | services/light-service/internal/adapters/grpc/handler_test.go:72-96 | a recorded 100 lux reading gets ID 1, is "Low Light", and is then served as the current light |
| Scenarios.RecordNegativeLux | services/light-service/internal/adapters/grpc/handler_test.go:187-196 | -10 lux is answered with InvalidArgument "lux value cannot be negative" |
| Scenarios.SeedTwoReadings | services/light-service/internal/adapters/grpc/handler_test.go:104-112 | recording 300 lux and then 600 lux, at two instants in order, stores them under IDs 1 and 2 with those stamps |
| Scenarios.HistoryOfTwoReadings | services/light-service/internal/adapters/grpc/handler_test.go:98-140 | when both readings are recorded within 59 seconds after the clock reading, the whole-second history from a minute before it to a minute after it has two entries, mean 450, minimum 300 and maximum 600 |
| Scenarios.TwoReadingsHistory | services/light-service/internal/adapters/grpc/handler_test.go:125-139 | any reply the handler may give for that query has two entries and those statistics |

## Left out

- The SQLite backend (`internal/adapters/sqlite/`) is not part of this
  model. Its range query includes the end bound, but its own test expects
  the end to be excluded. Only the in-memory backend is modelled.
- Memory.ReadingRepository.GetReadingsInRange: the interface comment in
  `domain/repository.go` promises a half-open range [start, end). The
  in-memory code excludes both ends (`After(start) && Before(end)`). The
  model follows the code, so a reading stamped exactly `start` is not
  returned.
- Memory.ReadingRepository.GetReadingsInRange: `sort.Slice` is not stable
  and Go's map order is unspecified. The result is therefore specified only
  up to the order of readings with equal timestamps.
- Memory.ReadingRepository.GetLatestReading: of several readings with the
  greatest timestamp, which one is returned depends on Go's map order. The
  contract says only that it is one of them.
- Memory.ReadingRepository.SaveReading: the source stores the caller's
  pointer and writes the ID back through it. The model returns the updated
  reading instead, so aliasing between the caller's value and the stored
  entry is not modelled.
- Memory.ReadingRepository: the read/write mutex only serialises
  operations. Each operation is one atomic method, and concurrency is not
  modelled.
- Memory.ReadingRepository.SaveReading: the counter is an `int64` whose
  overflow is not modelled. Nanosecond times are unbounded integers, not the
  range of Go's `time.Time`.
- RepositoryPort.Repository: Go's port is an interface. The model is one
  class forwarding to the in-memory repository, with a set of operations
  that fail with a storage error and change nothing. That set stands for the
  I/O failures of a durable backend. It is fixed for the port's lifetime, so
  a backend that fails one call and succeeds on the next is not expressed.
  No contract depends on this, since the calls a run makes do not depend on
  their outcomes.
- Ports.Recorder.Start: the two tickers, the goroutine and the context are
  replaced by a finite sequence of tick and cancel events. For a positive
  interval, the interval and the 24-hour cleanup period only decide when
  ticks arrive, so they do not appear in the contracts. A run that is never
  cancelled is not modelled.
- Ports.Recorder.Start: a zero or negative interval makes `time.NewTicker`
  panic before the first sample, so nothing is read or saved and the process
  ends. That path is not modelled: `Start` requires a positive interval.
- Ports.LightSensor: `Close` of the sensor port has no model. Neither the
  recorder nor the handler calls it. The fake sensor's `Close` is modelled.
- Mock.FakeSensor.ReadLux: `rand.Float64()` is a parameter `draw`, taken to
  range over [0, 1) where a lemma needs it.
- Lux values and the statistics are real numbers, not IEEE doubles.
  Rounding in the mean and in `base + variance` is not modelled. NaN is not
  modelled either: in Go a NaN lux passes the `lux < 0` check, satisfies none
  of the three category predicates and is named "High Light". So
  `Domain.ExactlyOneCategory` holds for the real-valued model only.
- Logging (zerolog), the gRPC transport, protobuf encoding, TLS
  (`pkg/tlsconfig`) and the server wiring (`cmd/server/main.go`) are not
  modelled. The status messages are kept as strings.
- GetCurrentLight and RecordReading read the clock through
  `NewLightReading`. DeleteOldReadings reads it for its cutoff. In the model
  these readings are the parameter `now`.
