/**
 * The storage port (internal/domain/repository.go).
 *
 * The port is an interface that several backends implement. Here one class
 * stands for it: it forwards every operation to an in-memory backend, except
 * that the operations named in `failing` report a storage error and change
 * nothing, as a durable backend does when its I/O fails. A ghost log records
 * every call made through the port, so that callers (the recorder and the
 * request handler) can be specified by the calls they make.
 */
module RepositoryPort {
  import opened Domain
  import Memory

  /** The five operations of the port. */
  datatype Operation = SaveOp | GetOp | RangeOp | LatestOp | DeleteOldOp

  /** One call made through the port, with its arguments. */
  datatype Call =
    | SaveCall(reading: LightReading)
    | GetCall(id: int)
    | RangeCall(start: Time, end: Time)
    | LatestCall
    | DeleteOldCall(olderThan: Duration, now: Time)
  {
    function Op(): Operation
    {
      match this
      case SaveCall(_) => SaveOp
      case GetCall(_) => GetOp
      case RangeCall(_, _) => RangeOp
      case LatestCall => LatestOp
      case DeleteOldCall(_, _) => DeleteOldOp
    }
  }

  /** The backend state after `c`, when the operations in `failing` fail. */
  function Apply(s: Memory.Store, c: Call, failing: set<Operation>): Memory.Store
  {
    if c.Op() in failing then s
    else
      match c
      case SaveCall(r) => Memory.Saved(s, r)
      case DeleteOldCall(d, now) => Memory.Evicted(s, now - d)
      case _ => s
  }

  /** The backend state after the calls `cs`, in order. */
  function Replay(s: Memory.Store, cs: seq<Call>, failing: set<Operation>): Memory.Store
    decreases |cs|
  {
    if cs == [] then s else Replay(Apply(s, cs[0], failing), cs[1..], failing)
  }

  /** Replaying two batches of calls is replaying their concatenation. */
  lemma {:induction false} ReplayAppend(s: Memory.Store, a: seq<Call>, b: seq<Call>, failing: set<Operation>)
    ensures Replay(s, a + b, failing) == Replay(Replay(s, a, failing), b, failing)
    decreases |a|
  {
    if a != [] {
      assert (a + b)[0] == a[0];
      assert (a + b)[1..] == a[1..] + b;
      ReplayAppend(Apply(s, a[0], failing), a[1..], b, failing);
    } else {
      assert a + b == b;
    }
  }

  /** A call that is neither a save nor an eviction leaves the backend as it was. */
  lemma ReadsChangeNothing(s: Memory.Store, c: Call, failing: set<Operation>)
    requires !c.SaveCall? && !c.DeleteOldCall?
    ensures Apply(s, c, failing) == s
  {
  }

  /** Every call keeps the backend well formed. */
  lemma {:induction false} ReplayPreservesWellFormed(s: Memory.Store, cs: seq<Call>, failing: set<Operation>)
    requires Memory.WellFormed(s)
    ensures Memory.WellFormed(Replay(s, cs, failing))
    decreases |cs|
  {
    if cs != [] {
      var c := cs[0];
      if c.Op() !in failing {
        match c
        case SaveCall(r) => Memory.SavePreserves(s, r);
        case DeleteOldCall(d, now) => Memory.EvictPreserves(s, now - d);
        case _ =>
      }
      ReplayPreservesWellFormed(Apply(s, c, failing), cs[1..], failing);
    }
  }

  class Repository {
    const backend: Memory.ReadingRepository
    const failing: set<Operation>
    ghost var log: seq<Call>
    ghost const initial: Memory.Store

    ghost predicate Valid()
      reads this, backend
    {
      backend.Valid()
    }

    /** The backend holds what replaying the log on its initial state gives. */
    ghost predicate Tracks()
      reads this, backend
    {
      backend.Model() == Replay(initial, log, failing)
    }

    constructor (backend: Memory.ReadingRepository, failing: set<Operation>)
      requires backend.Valid()
      ensures Valid() && Tracks() && this.backend == backend && this.failing == failing && log == []
      ensures initial == backend.Model()
    {
      this.backend := backend;
      this.failing := failing;
      log := [];
      initial := backend.Model();
    }

    /**
     * Saves `reading`; `saved` is the reading as the caller holds it
     * afterwards: with its assigned ID on success, unchanged on failure.
     */
    method SaveReading(reading: LightReading) returns (saved: LightReading, err: Outcome)
      requires Valid()
      modifies this, backend
      ensures Valid() && (old(Tracks()) ==> Tracks())
      ensures log == old(log) + [SaveCall(reading)]
      ensures backend.Model() == Apply(old(backend.Model()), SaveCall(reading), failing)
      ensures SaveOp in failing ==> err == Fail(StorageError) && saved == reading
      ensures SaveOp !in failing ==>
        err == Pass && saved == reading.(id := Memory.AssignedID(old(backend.Model()), reading))
    {
      ReplayAppend(initial, log, [SaveCall(reading)], failing);
      log := log + [SaveCall(reading)];
      if SaveOp in failing {
        saved, err := reading, Fail(StorageError);
      } else {
        saved, err := backend.SaveReading(reading);
      }
    }

    method GetReading(id: int) returns (r: Result<LightReading>)
      requires Valid()
      modifies this
      ensures Valid() && (old(Tracks()) ==> Tracks())
      ensures log == old(log) + [GetCall(id)]
      ensures GetOp in failing ==> r == Err(StorageError)
      ensures GetOp !in failing && id in backend.readings ==> r == Ok(backend.readings[id])
      ensures GetOp !in failing && id !in backend.readings ==> r == Err(ErrReadingNotFound)
    {
      ReplayAppend(initial, log, [GetCall(id)], failing);
      log := log + [GetCall(id)];
      if GetOp in failing {
        r := Err(StorageError);
      } else {
        r := backend.GetReading(id);
      }
    }

    method GetReadingsInRange(start: Time, end: Time) returns (r: Result<seq<LightReading>>)
      requires Valid()
      modifies this
      ensures Valid() && (old(Tracks()) ==> Tracks())
      ensures log == old(log) + [RangeCall(start, end)]
      ensures RangeOp in failing ==> r == Err(StorageError)
      ensures RangeOp !in failing ==> r.Ok? && Memory.IsRangeResult(backend.readings, start, end, r.value)
    {
      ReplayAppend(initial, log, [RangeCall(start, end)], failing);
      log := log + [RangeCall(start, end)];
      if RangeOp in failing {
        r := Err(StorageError);
      } else {
        r := backend.GetReadingsInRange(start, end);
      }
    }

    method GetLatestReading() returns (r: Result<LightReading>)
      requires Valid()
      modifies this
      ensures Valid() && (old(Tracks()) ==> Tracks())
      ensures log == old(log) + [LatestCall]
      ensures LatestOp in failing ==> r == Err(StorageError)
      ensures LatestOp !in failing && backend.readings == map[] ==> r == Err(ErrReadingNotFound)
      ensures LatestOp !in failing && backend.readings != map[] ==>
        r.Ok? && Memory.IsLatest(backend.readings, r.value)
    {
      ReplayAppend(initial, log, [LatestCall], failing);
      log := log + [LatestCall];
      if LatestOp in failing {
        r := Err(StorageError);
      } else {
        r := backend.GetLatestReading();
      }
    }

    method DeleteOldReadings(olderThan: Duration, now: Time) returns (err: Outcome)
      requires Valid()
      modifies this, backend
      ensures Valid() && (old(Tracks()) ==> Tracks())
      ensures log == old(log) + [DeleteOldCall(olderThan, now)]
      ensures backend.Model() == Apply(old(backend.Model()), DeleteOldCall(olderThan, now), failing)
      ensures err == (if DeleteOldOp in failing then Fail(StorageError) else Pass)
    {
      ReplayAppend(initial, log, [DeleteOldCall(olderThan, now)], failing);
      log := log + [DeleteOldCall(olderThan, now)];
      if DeleteOldOp in failing {
        err := Fail(StorageError);
      } else {
        err := backend.DeleteOldReadings(olderThan, now);
      }
    }
  }
}
