/**
 * The process record of the simulator (class `Process`) as an immutable
 * value. Every mutator of the record returns an updated copy, and the
 * getters are the datatype's fields.
 */
module Processes {

  /** The part of a process that the workload fixes and the engine never changes. */
  datatype Profile = Profile(arrival: int, burst: int, priority: int, id: int)

  /** A process record: its profile plus the runtime state the engine updates. */
  datatype Process = Process(
    arrival: int,
    burst: int,
    remaining: int,
    accessed: bool,
    initialWait: int,
    totalWait: int,
    priority: int,
    id: int)
  {
    /** The fixed part of this record. */
    function Identity(): Profile {
      Profile(arrival, burst, priority, id)
    }
  }

  /** A record nobody has dispatched or serviced yet. */
  predicate Fresh(p: Process) {
    p.remaining == p.burst && !p.accessed && p.initialWait == 0 && p.totalWait == 0
  }

  /** The constructor `Process(burst, arrival, id, priority)`. */
  function New(burst: int, arrival: int, id: int, priority: int): (p: Process)
    ensures p.Identity() == Profile(arrival, burst, priority, id)
    ensures Fresh(p)
  {
    Process(arrival, burst, burst, false, 0, 0, priority, id)
  }

  /** `decrementBurstTime`: one tick of service, nothing else changes. */
  function Decrement(p: Process): (r: Process)
    ensures r.Identity() == p.Identity()
    ensures r.remaining == p.remaining - 1
    ensures r.accessed == p.accessed && r.initialWait == p.initialWait && r.totalWait == p.totalWait
  {
    p.(remaining := p.remaining - 1)
  }

  /**
   * `markAsAccessed(wait)`: the first dispatch records the wait as both the
   * initial and the total waiting time.
   */
  function MarkAccessed(p: Process, wait: int): (r: Process)
    ensures r.accessed && r.initialWait == wait && r.totalWait == wait
    ensures r.Identity() == p.Identity() && r.remaining == p.remaining
  {
    p.(accessed := true, initialWait := wait, totalWait := wait)
  }

  /** `setProcessId`: only the identifier changes. */
  function WithId(p: Process, id: int): (r: Process)
    ensures r.id == id
    ensures r.Identity() == p.Identity().(id := id)
    ensures r.remaining == p.remaining && r.accessed == p.accessed
    ensures r.initialWait == p.initialWait && r.totalWait == p.totalWait
  {
    p.(id := id)
  }

  /** The profiles of a sequence of records, position by position. */
  function Identities(s: seq<Process>): (r: seq<Profile>)
    ensures |r| == |s|
    ensures forall i :: 0 <= i < |s| ==> r[i] == s[i].Identity()
  {
    seq(|s|, i requires 0 <= i < |s| => s[i].Identity())
  }

  lemma IdentitiesConcat(a: seq<Process>, b: seq<Process>)
    ensures Identities(a + b) == Identities(a) + Identities(b)
  {
    assert forall i :: 0 <= i < |a + b| ==> Identities(a + b)[i] == (Identities(a) + Identities(b))[i];
  }

  /** Ordered by `compareByArrivalTime`: arrival times never decrease. */
  predicate SortedByArrival(s: seq<Process>) {
    forall i, j :: 0 <= i < j < |s| ==> s[i].arrival <= s[j].arrival
  }

  /** `compareByArrivalTime(a, b)`: `a` arrived strictly before `b`. */
  predicate ArrivesBefore(a: Process, b: Process) {
    a.arrival < b.arrival
  }

  /**
   * Sorted with respect to the comparator, in the sense `std::sort`
   * promises (no record compares before its predecessor), is the same as
   * arrival times never decreasing anywhere in the list.
   */
  lemma {:induction false} SortedByComparator(s: seq<Process>)
    ensures SortedByArrival(s) <==> forall i :: 0 < i < |s| ==> !ArrivesBefore(s[i], s[i - 1])
    decreases |s|
  {
    if |s| > 1 && forall i :: 0 < i < |s| ==> !ArrivesBefore(s[i], s[i - 1]) {
      var t := s[..|s| - 1];
      assert forall i :: 0 < i < |t| ==> !ArrivesBefore(t[i], t[i - 1]);
      SortedByComparator(t);
      forall i, j | 0 <= i < j < |s|
        ensures s[i].arrival <= s[j].arrival
      {
        if j < |s| - 1 {
          assert s[i] == t[i] && s[j] == t[j];
        } else {
          assert s[j - 1] == t[j - 1];
          assert !ArrivesBefore(s[j], s[j - 1]);
          if i < j - 1 {
            assert s[i] == t[i];
          }
        }
      }
    }
  }

  lemma SortedSuffix(a: seq<Process>, b: seq<Process>)
    requires SortedByArrival(a + b)
    ensures SortedByArrival(b)
  {
    forall i, j | 0 <= i < j < |b|
      ensures b[i].arrival <= b[j].arrival
    {
      assert b[i] == (a + b)[|a| + i] && b[j] == (a + b)[|a| + j];
    }
  }

  function BurstOf(p: Process): int { p.burst }

  function RemainingOf(p: Process): int { p.remaining }

  /** The sum of `f` over a sequence of records. */
  function SumBy(s: seq<Process>, f: Process -> int): int
    decreases |s|
  {
    if s == [] then 0 else SumBy(s[..|s| - 1], f) + f(s[|s| - 1])
  }

  lemma {:induction false} SumByConcat(a: seq<Process>, b: seq<Process>, f: Process -> int)
    ensures SumBy(a + b, f) == SumBy(a, f) + SumBy(b, f)
    decreases |b|
  {
    if b != [] {
      var b' := b[..|b| - 1];
      assert (a + b)[..|a + b| - 1] == a + b';
      SumByConcat(a, b', f);
    } else {
      assert a + b == a;
    }
  }

  /** Records with the same profiles, position by position, have the same total burst. */
  lemma {:induction false} SumOfBurstsByIdentity(a: seq<Process>, b: seq<Process>)
    requires Identities(a) == Identities(b)
    ensures SumBy(a, BurstOf) == SumBy(b, BurstOf)
    decreases |a|
  {
    if a != [] {
      var n := |a| - 1;
      assert a[n].Identity() == b[n].Identity();
      assert Identities(a[..n]) == Identities(b[..n]) by {
        assert forall i :: 0 <= i < n ==> Identities(a[..n])[i] == Identities(a)[i];
        assert forall i :: 0 <= i < n ==> Identities(b[..n])[i] == Identities(b)[i];
      }
      SumOfBurstsByIdentity(a[..n], b[..n]);
    }
  }

  /** A sum over records does not depend on their order. */
  lemma {:induction false} SumByPermutation(a: seq<Process>, b: seq<Process>, f: Process -> int)
    requires multiset(a) == multiset(b)
    ensures SumBy(a, f) == SumBy(b, f)
    decreases |a|
  {
    if a == [] {
      assert |b| == |multiset(b)| == 0;
    } else {
      var a' := a[..|a| - 1];
      var x := a[|a| - 1];
      assert a == a' + [x];
      assert x in multiset(b);
      var j :| 0 <= j < |b| && b[j] == x;
      var b' := b[..j] + b[j + 1..];
      assert b == b[..j] + [x] + b[j + 1..];
      assert multiset(b') == multiset(b) - multiset{x};
      assert multiset(a') == multiset(a) - multiset{x};
      SumByPermutation(a', b', f);
      SumByConcat(b[..j] + [x], b[j + 1..], f);
      SumByConcat(b[..j], [x], f);
      SumByConcat(b[..j], b[j + 1..], f);
      assert SumBy([x], f) == f(x) by {
        assert [x][..0] == [];
      }
    }
  }
}
