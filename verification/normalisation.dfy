/**
 * Post-generation normalisation in `main`: the generated workload is sorted
 * by arrival time with `compareByArrivalTime`, then the identifiers are
 * reassigned 1..N in that order. `std::sort` is not stable, so nothing here
 * depends on the order of records with equal arrival times: the sort below
 * is one admissible choice, and the properties are stated for any sorted
 * permutation.
 */
module Normalisation {
  import opened Processes

  /** Inserts `p` into a list sorted by arrival, keeping it sorted. */
  function Insert(p: Process, s: seq<Process>): (r: seq<Process>)
    requires SortedByArrival(s)
    ensures SortedByArrival(r)
    ensures multiset(r) == multiset(s) + multiset{p}
    ensures |r| > 0 && (r[0] == p || (|s| > 0 && r[0] == s[0]))
    decreases |s|
  {
    if s == [] || p.arrival <= s[0].arrival then
      ConsSorted(p, s);
      [p] + s
    else
      assert s == [s[0]] + s[1..];
      SortedSuffix([s[0]], s[1..]);
      var tail := Insert(p, s[1..]);
      ConsSorted(s[0], tail);
      [s[0]] + tail
  }

  /** Putting a record no later than the head in front of a sorted list keeps it sorted. */
  lemma ConsSorted(x: Process, t: seq<Process>)
    requires SortedByArrival(t) && (t != [] ==> x.arrival <= t[0].arrival)
    ensures SortedByArrival([x] + t)
  {
    var r := [x] + t;
    forall i, j | 0 <= i < j < |r|
      ensures r[i].arrival <= r[j].arrival
    {
      if i > 0 {
        assert r[i] == t[i - 1] && r[j] == t[j - 1];
      } else {
        assert r[j] == t[j - 1];
        assert t[0].arrival <= t[j - 1].arrival;
      }
    }
  }

  /** Sorts by arrival time; the result is a sorted permutation of `s`. */
  function SortByArrival(s: seq<Process>): (r: seq<Process>)
    ensures SortedByArrival(r)
    ensures multiset(r) == multiset(s)
    decreases |s|
  {
    if s == [] then []
    else
      assert s == [s[0]] + s[1..];
      Insert(s[0], SortByArrival(s[1..]))
  }

  /** The id loop: the record at position `i` gets identifier `i + 1`. */
  function Relabel(s: seq<Process>): (r: seq<Process>)
    ensures |r| == |s|
    ensures forall i :: 0 <= i < |s| ==> r[i] == WithId(s[i], i + 1)
  {
    seq(|s|, i requires 0 <= i < |s| => WithId(s[i], i + 1))
  }

  /** Sort by arrival, then reassign identifiers 1..N. */
  function Normalise(s: seq<Process>): seq<Process>
  {
    Relabel(SortByArrival(s))
  }

  /** The engine's admissible input: fresh records that each need some CPU time. */
  predicate Workload(s: seq<Process>) {
    forall i :: 0 <= i < |s| ==> Fresh(s[i]) && s[i].burst >= 1
  }

  /**
   * Normalising yields a list sorted by arrival whose identifiers are
   * 1..N in order, obtained by relabelling some sorted permutation of the
   * generated records; fresh records with positive bursts stay so.
   */
  lemma NormaliseSpec(s: seq<Process>)
    ensures |Normalise(s)| == |s|
    ensures SortedByArrival(Normalise(s))
    ensures forall i :: 0 <= i < |s| ==> Normalise(s)[i].id == i + 1
    ensures exists q :: SortedByArrival(q) && multiset(q) == multiset(s) && Normalise(s) == Relabel(q)
    ensures Workload(s) ==> Workload(Normalise(s))
  {
    var q := SortByArrival(s);
    assert |q| == |multiset(q)| == |multiset(s)| == |s|;
    if Workload(s) {
      forall i | 0 <= i < |q|
        ensures Fresh(q[i]) && q[i].burst >= 1
      {
        assert q[i] in multiset(s);
      }
    }
  }
}
