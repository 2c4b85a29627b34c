/**
 * The in-memory repository (internal/adapters/memory/reading_repository.go):
 * a map from ID to reading and an ID counter. Its lock only serialises the
 * operations, so each operation is one atomic method here.
 */
module Memory {
  import opened Domain

  /** The abstract state of an in-memory repository. */
  datatype Store = Store(readings: map<int, LightReading>, nextID: int)

  /** Every reading is stored under its own ID, ID 0 is never a key, and the counter is positive. */
  ghost predicate WellFormed(s: Store)
  {
    && s.nextID >= 1
    && 0 !in s.readings
    && forall k :: k in s.readings ==> s.readings[k].id == k
  }

  /** Every key was handed out by the counter (no caller chose its own ID). */
  ghost predicate IdsIssued(s: Store)
  {
    forall k :: k in s.readings ==> 0 < k < s.nextID
  }

  /** The ID a save stores the reading under: the counter for an unsaved reading, its own otherwise. */
  function AssignedID(s: Store, r: LightReading): int
  {
    if r.id == 0 then s.nextID else r.id
  }

  /** The state after saving `r`. */
  function Saved(s: Store, r: LightReading): Store
  {
    var stored := r.(id := AssignedID(s, r));
    Store(s.readings[stored.id := stored], if r.id == 0 then s.nextID + 1 else s.nextID)
  }

  /** The state after evicting every reading stamped strictly before `cutoff`. */
  function Evicted(s: Store, cutoff: Time): Store
  {
    Store(map k | k in s.readings && s.readings[k].timestamp >= cutoff :: s.readings[k], s.nextID)
  }

  /** The readings stored under `keys` whose timestamp lies strictly between `start` and `end`. */
  ghost function Matching(m: map<int, LightReading>, keys: set<int>, start: Time, end: Time): set<LightReading>
  {
    set k | k in keys && k in m && start < m[k].timestamp < end :: m[k]
  }

  /** The stored readings a range query selects: both ends are excluded. */
  ghost function InRange(m: map<int, LightReading>, start: Time, end: Time): set<LightReading>
  {
    Matching(m, m.Keys, start, end)
  }

  ghost predicate SortedByTimestamp(rs: seq<LightReading>)
  {
    forall i, j :: 0 <= i < j < |rs| ==> rs[i].timestamp <= rs[j].timestamp
  }

  /** `rs` holds exactly the selected readings, each once, in timestamp order (ties in any order). */
  ghost predicate IsRangeResult(m: map<int, LightReading>, start: Time, end: Time, rs: seq<LightReading>)
  {
    multiset(rs) == multiset(InRange(m, start, end)) && SortedByTimestamp(rs)
  }

  /** `x` is a stored reading that no stored reading is newer than. */
  ghost predicate IsLatest(m: map<int, LightReading>, x: LightReading)
  {
    x in m.Values && forall k :: k in m ==> m[k].timestamp <= x.timestamp
  }

  // ----- properties of the abstract operations -----

  /** A new repository is well formed and has issued no ID. */
  lemma EmptyStoreWellFormed()
    ensures WellFormed(Store(map[], 1)) && IdsIssued(Store(map[], 1))
  {
  }

  /** Saving preserves well-formedness, and saving an issued or unsaved reading keeps every key issued. */
  lemma SavePreserves(s: Store, r: LightReading)
    requires WellFormed(s)
    ensures WellFormed(Saved(s, r))
    ensures IdsIssued(s) && (r.id == 0 || 0 < r.id < s.nextID) ==> IdsIssued(Saved(s, r))
  {
  }

  /**
   * When every key was issued by the counter, an unsaved reading gets an ID
   * no stored reading has, so the store grows by exactly one entry.
   */
  lemma FreshIdNeverOverwrites(s: Store, r: LightReading)
    requires IdsIssued(s) && r.id == 0
    ensures s.nextID !in s.readings
    ensures |Saved(s, r).readings| == |s.readings| + 1
  {
  }

  /** Saving an already-saved reading again changes nothing: its ID is not reassigned. */
  lemma ResaveIsIdempotent(s: Store, r: LightReading)
    requires WellFormed(s) && r.id in s.readings && s.readings[r.id] == r
    ensures Saved(s, r) == s
  {
    assert r.id != 0;
    assert s.readings[r.id := r] == s.readings;
  }

  /** Eviction preserves well-formedness, issued IDs and the counter, and never adds a reading. */
  lemma EvictPreserves(s: Store, cutoff: Time)
    ensures WellFormed(s) ==> WellFormed(Evicted(s, cutoff))
    ensures IdsIssued(s) ==> IdsIssued(Evicted(s, cutoff))
    ensures Evicted(s, cutoff).readings.Keys <= s.readings.Keys
    ensures Evicted(s, cutoff).nextID == s.nextID
  {
  }

  /** Evicting twice with the same cutoff is the same as evicting once. */
  lemma EvictIdempotent(s: Store, cutoff: Time)
    ensures Evicted(Evicted(s, cutoff), cutoff) == Evicted(s, cutoff)
  {
  }

  /**
   * Readings stamped 48 hours and 1 hour before `now`: evicting those older
   * than 24 hours removes the first and keeps the second.
   */
  lemma EvictExample(now: Time)
    ensures
      var old1 := LightReading(1, 100.0, now - 48 * Hour);
      var recent := LightReading(2, 200.0, now - 1 * Hour);
      var s := Evicted(Store(map[1 := old1, 2 := recent], 3), now - 24 * Hour);
      1 !in s.readings && 2 in s.readings && s.readings[2] == recent
  {
  }

  /** Membership in a range selection: stored, and strictly inside the interval. */
  lemma InRangeMembers(m: map<int, LightReading>, start: Time, end: Time, x: LightReading)
    ensures x in InRange(m, start, end) <==> x in m.Values && start < x.timestamp < end
  {
    if x in m.Values {
      var k := KeyOf(m, x);
      assert k in m.Keys;
    }
  }

  /**
   * A range result holds only stored readings strictly inside the interval:
   * one stamped exactly `start` or exactly `end` is never returned.
   */
  lemma {:induction false} RangeResultMembers(m: map<int, LightReading>, start: Time, end: Time, rs: seq<LightReading>, i: int)
    requires IsRangeResult(m, start, end, rs)
    requires 0 <= i < |rs|
    ensures rs[i] in m.Values && start < rs[i].timestamp < end
    ensures rs[i].timestamp != start && rs[i].timestamp != end
  {
    assert rs[i] in multiset(rs);
    assert rs[i] in InRange(m, start, end);
    InRangeMembers(m, start, end, rs[i]);
  }

  /** Every selected reading appears in the result, and only once. */
  lemma {:induction false} RangeResultComplete(m: map<int, LightReading>, start: Time, end: Time, rs: seq<LightReading>, x: LightReading)
    requires IsRangeResult(m, start, end, rs)
    requires x in m.Values && start < x.timestamp < end
    ensures multiset(rs)[x] == 1
  {
    InRangeMembers(m, start, end, x);
  }

  /** When nothing is stored strictly inside the interval the result is empty (not an error). */
  lemma {:induction false} RangeResultEmpty(m: map<int, LightReading>, start: Time, end: Time, rs: seq<LightReading>)
    requires IsRangeResult(m, start, end, rs)
    requires forall k :: k in m ==> !(start < m[k].timestamp < end)
    ensures rs == []
  {
    if rs != [] {
      RangeResultMembers(m, start, end, rs, 0);
      var k := KeyOf(m, rs[0]);
      assert false;
    }
  }

  /** The key a stored reading sits under. */
  lemma KeyOf<K, V>(m: map<K, V>, x: V) returns (k: K)
    requires x in m.Values
    ensures k in m && m[k] == x
  {
    if forall j :: j in m ==> m[j] != x {
      assert false;
    }
    k :| k in m && m[k] == x;
  }

  /** Some element of a non-empty set (the source's map iteration order is unspecified). */
  method Choose<T>(s: set<T>) returns (x: T)
    requires s != {}
    ensures x in s
  {
    if forall y :: y !in s {
      assert false;
    }
    x :| x in s;
  }

  /** Adding one key to the scanned set adds at most that key's reading, which was not selected before. */
  lemma MatchingStep(m: map<int, LightReading>, done: set<int>, k: int, start: Time, end: Time)
    requires forall j :: j in m ==> m[j].id == j
    requires k in m && k !in done
    ensures m[k] !in Matching(m, done, start, end)
    ensures Matching(m, done + {k}, start, end)
         == Matching(m, done, start, end) + (if start < m[k].timestamp < end then {m[k]} else {})
  {
  }

  lemma MultisetOfSetAdd(a: set<LightReading>, x: LightReading)
    requires x !in a
    ensures multiset(a + {x}) == multiset(a) + multiset{x}
  {
    var l := multiset(a + {x});
    var r := multiset(a) + multiset{x};
    forall y ensures l[y] == r[y] {
    }
  }

  /** MatchingStep, counted with multiplicities. */
  lemma MatchingStepMultiset(m: map<int, LightReading>, done: set<int>, k: int, start: Time, end: Time)
    requires forall j :: j in m ==> m[j].id == j
    requires k in m && k !in done
    ensures multiset(Matching(m, done + {k}, start, end))
         == multiset(Matching(m, done, start, end)) + (if start < m[k].timestamp < end then multiset{m[k]} else multiset{})
  {
    MatchingStep(m, done, k, start, end);
    if start < m[k].timestamp < end {
      MultisetOfSetAdd(Matching(m, done, start, end), m[k]);
    }
  }

  lemma MultisetSwapAdjacent(s: seq<LightReading>, j: int)
    requires 0 < j < |s|
    ensures multiset(s[j - 1 := s[j]][j := s[j - 1]]) == multiset(s)
  {
  }

  /** The first `n` elements of `a` are in timestamp order. */
  ghost predicate SortedPrefix(a: array<LightReading>, n: int)
    reads a
  {
    forall p, q :: 0 <= p < q < n && q < a.Length ==> a[p].timestamp <= a[q].timestamp
  }

  /** Swaps the neighbours at `j - 1` and `j`. */
  method SwapDown(a: array<LightReading>, j: int)
    requires 0 < j < a.Length
    modifies a
    ensures a[..] == old(a[..])[j - 1 := old(a[j])][j := old(a[j - 1])]
    ensures multiset(a[..]) == multiset(old(a[..]))
  {
    MultisetSwapAdjacent(a[..], j);
    a[j - 1], a[j] := a[j], a[j - 1];
  }

  /** Moves `a[i]` left until the first `i + 1` elements are in timestamp order. */
  method InsertAt(a: array<LightReading>, i: int)
    requires 0 < i < a.Length
    requires SortedPrefix(a, i)
    modifies a
    ensures SortedPrefix(a, i + 1)
    ensures multiset(a[..]) == multiset(old(a[..]))
  {
    var j := i;
    while j > 0 && a[j - 1].timestamp > a[j].timestamp
      invariant 0 <= j <= i
      invariant forall p, q :: 0 <= p < q <= i && p != j && q != j ==> a[p].timestamp <= a[q].timestamp
      invariant forall q :: j < q <= i ==> a[j].timestamp <= a[q].timestamp
      invariant multiset(a[..]) == multiset(old(a[..]))
    {
      SwapDown(a, j);
      j := j - 1;
    }
  }

  /** Sorts `a` by timestamp in place; the outcome is one sorted permutation (ties in any order). */
  method SortInPlace(a: array<LightReading>)
    modifies a
    ensures SortedByTimestamp(a[..])
    ensures multiset(a[..]) == multiset(old(a[..]))
  {
    var i := 1;
    while i < a.Length
      invariant 1 <= i
      invariant SortedPrefix(a, i)
      invariant multiset(a[..]) == multiset(old(a[..]))
    {
      InsertAt(a, i);
      i := i + 1;
    }
  }

  /** The readings of `m` stamped strictly between `start` and `end`, in the map's iteration order. */
  method CollectInRange(m: map<int, LightReading>, start: Time, end: Time) returns (results: seq<LightReading>)
    requires forall k :: k in m ==> m[k].id == k
    ensures multiset(results) == multiset(InRange(m, start, end))
  {
    results := [];
    var todo := m.Keys;
    ghost var done: set<int> := {};
    while todo != {}
      invariant todo <= m.Keys && done == m.Keys - todo
      invariant multiset(results) == multiset(Matching(m, done, start, end))
      decreases todo
    {
      var k := Choose(todo);
      var reading := m[k];
      MatchingStepMultiset(m, done, k, start, end);
      if start < reading.timestamp < end {
        results := results + [reading];
      }
      assert multiset(results) == multiset(Matching(m, done + {k}, start, end));
      todo := todo - {k};
      done := done + {k};
    }
    assert done == m.Keys;
  }

  /** The readings of `s` sorted by timestamp, as the source sorts its result slice in place. */
  method SortByTimestamp(s: seq<LightReading>) returns (sorted: seq<LightReading>)
    ensures SortedByTimestamp(sorted)
    ensures multiset(sorted) == multiset(s)
  {
    var a := new LightReading[|s|](i requires 0 <= i < |s| => s[i]);
    assert a[..] == s;
    SortInPlace(a);
    sorted := a[..];
  }

  class ReadingRepository {
    var readings: map<int, LightReading>
    var nextID: int

    ghost function Model(): Store
      reads this
    {
      Store(readings, nextID)
    }

    ghost predicate Valid()
      reads this
    {
      WellFormed(Model())
    }

    /** An empty repository whose counter starts at 1. */
    constructor ()
      ensures Valid() && IdsIssued(Model())
      ensures readings == map[] && nextID == 1
    {
      readings := map[];
      nextID := 1;
    }

    /**
     * Stores `reading`, first giving an unsaved one the next ID. `saved` is
     * the reading as the caller sees it afterwards (the source writes the ID
     * back through the caller's pointer).
     */
    method SaveReading(reading: LightReading) returns (saved: LightReading, err: Outcome)
      requires Valid()
      modifies this
      ensures Valid()
      ensures reading.id == 0 ==> saved.id == old(nextID) && nextID == old(nextID) + 1
      ensures reading.id != 0 ==> saved.id == reading.id && nextID == old(nextID)
      ensures saved == reading.(id := saved.id)
      ensures readings == old(readings)[saved.id := saved]
      ensures Model() == Saved(old(Model()), reading)
      ensures err == Pass
    {
      saved := reading;
      if saved.id == 0 {
        saved := saved.(id := nextID);
        nextID := nextID + 1;
      }
      readings := readings[saved.id := saved];
      err := Pass;
    }

    /** The reading stored under `id`, or ErrReadingNotFound. */
    method GetReading(id: int) returns (r: Result<LightReading>)
      ensures id in readings ==> r == Ok(readings[id])
      ensures id !in readings ==> r == Err(ErrReadingNotFound)
    {
      if id in readings {
        r := Ok(readings[id]);
      } else {
        r := Err(ErrReadingNotFound);
      }
    }

    /**
     * The stored readings stamped strictly after `start` and strictly before
     * `end`, sorted by timestamp. Never fails.
     */
    method GetReadingsInRange(start: Time, end: Time) returns (r: Result<seq<LightReading>>)
      requires Valid()
      ensures r.Ok? && IsRangeResult(readings, start, end, r.value)
    {
      var results := CollectInRange(readings, start, end);
      var sorted := SortByTimestamp(results);
      r := Ok(sorted);
    }

    /** A stored reading with the greatest timestamp, or ErrReadingNotFound when nothing is stored. */
    method GetLatestReading() returns (r: Result<LightReading>)
      ensures r.Err? <==> readings == map[]
      ensures r.Err? ==> r.error == ErrReadingNotFound
      ensures r.Ok? ==> IsLatest(readings, r.value)
    {
      if |readings| == 0 {
        return Err(ErrReadingNotFound);
      }
      var found := false;
      var latest := LightReading(0, 0.0, 0);
      var todo := readings.Keys;
      while todo != {}
        invariant todo <= readings.Keys
        invariant found <==> todo != readings.Keys
        invariant found ==> latest in readings.Values
        invariant found ==> forall k :: k in readings && k !in todo ==> readings[k].timestamp <= latest.timestamp
        decreases todo
      {
        var k := Choose(todo);
        var reading := readings[k];
        if !found || reading.timestamp > latest.timestamp {
          latest := reading;
          found := true;
        }
        todo := todo - {k};
      }
      assert found by {
        if forall k :: k !in readings {
          assert false;
        }
      }
      r := Ok(latest);
    }

    /** Removes every reading stamped strictly before `now - olderThan`. Never fails. */
    method DeleteOldReadings(olderThan: Duration, now: Time) returns (err: Outcome)
      requires Valid()
      modifies this
      ensures Valid()
      ensures forall k :: k in readings <==> k in old(readings) && old(readings)[k].timestamp >= now - olderThan
      ensures forall k :: k in readings ==> readings[k] == old(readings)[k]
      ensures nextID == old(nextID)
      ensures Model() == Evicted(old(Model()), now - olderThan)
      ensures err == Pass
    {
      var cutoff := now - olderThan;
      var todo := readings.Keys;
      while todo != {}
        invariant todo <= old(readings).Keys
        invariant forall k :: k in readings <==> k in old(readings) && (k in todo || old(readings)[k].timestamp >= cutoff)
        invariant forall k :: k in readings ==> readings[k] == old(readings)[k]
        invariant nextID == old(nextID)
        decreases todo
      {
        var k := Choose(todo);
        if readings[k].timestamp < cutoff {
          readings := readings - {k};
        }
        todo := todo - {k};
      }
      ghost var kept := Evicted(old(Model()), cutoff).readings;
      assert old(Model()).readings == old(readings);
      forall k
        ensures k in readings <==> k in kept
        ensures k in readings ==> readings[k] == kept[k]
      {
      }
      assert readings == kept;
      err := Pass;
    }
  }
}
