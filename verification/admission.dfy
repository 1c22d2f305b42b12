/**
 * Admission: the scan at the top of every engine iteration that moves the
 * pending processes which have arrived onto the tail of the ready queue.
 */
module Admission {
  import opened Processes

  /** The two halves of a pending list: arrived now, and still to arrive. */
  datatype Split = Split(admitted: seq<Process>, rest: seq<Process>)

  /** `a` is `s` with some elements left out, the others in their order. */
  ghost predicate IsSubsequence(a: seq<Process>, s: seq<Process>)
    decreases |s|
  {
    a == [] ||
    (s != [] &&
     (IsSubsequence(a, s[..|s| - 1]) ||
      (a[|a| - 1] == s[|s| - 1] && IsSubsequence(a[..|a| - 1], s[..|s| - 1]))))
  }

  /**
   * The stable partition of `s` at time `t`: exactly the records with
   * `arrival <= t` are admitted, the others stay, each half keeps the order
   * of `s`, and together they are a permutation of `s`.
   */
  function Partition(s: seq<Process>, t: int): (r: Split)
    ensures forall p :: p in r.admitted ==> p.arrival <= t
    ensures forall p :: p in r.rest ==> p.arrival > t
    ensures multiset(r.admitted) + multiset(r.rest) == multiset(s)
    decreases |s|
  {
    if s == [] then Split([], [])
    else
      var init := s[..|s| - 1];
      var p := s[|s| - 1];
      var r := Partition(init, t);
      assert s == init + [p];
      assert multiset(s) == multiset(init) + multiset{p};
      if p.arrival <= t then Split(r.admitted + [p], r.rest)
      else Split(r.admitted, r.rest + [p])
  }

  lemma PartitionSnoc(s: seq<Process>, p: Process, t: int)
    ensures Partition(s + [p], t)
            == if p.arrival <= t then Split(Partition(s, t).admitted + [p], Partition(s, t).rest)
               else Split(Partition(s, t).admitted, Partition(s, t).rest + [p])
  {
    assert (s + [p])[..|s|] == s;
  }

  /** When nothing has arrived, nothing is admitted and the list is unchanged. */
  lemma {:induction false} NothingArrived(s: seq<Process>, t: int)
    requires forall i :: 0 <= i < |s| ==> s[i].arrival > t
    ensures Partition(s, t) == Split([], s)
    decreases |s|
  {
    if s != [] {
      NothingArrived(s[..|s| - 1], t);
      assert s == s[..|s| - 1] + [s[|s| - 1]];
    }
  }

  /**
   * On a list sorted by arrival the admitted records are a prefix and the
   * rest the matching suffix, so admission order is arrival order.
   */
  lemma {:induction false} SortedPartitionIsSplit(s: seq<Process>, t: int)
    requires SortedByArrival(s)
    ensures Partition(s, t).admitted + Partition(s, t).rest == s
    decreases |s|
  {
    if s != [] {
      var init := s[..|s| - 1];
      var p := s[|s| - 1];
      var r := Partition(init, t);
      assert s == init + [p];
      SortedPartitionIsSplit(init, t);
    }
  }

  lemma SubsequenceSnoc(a: seq<Process>, s: seq<Process>, x: Process)
    requires IsSubsequence(a, s)
    ensures IsSubsequence(a, s + [x])
    ensures IsSubsequence(a + [x], s + [x])
  {
    assert (s + [x])[..|s|] == s;
    assert (a + [x])[..|a|] == a;
  }

  /** Admission keeps the relative order of both halves. */
  lemma {:induction false} PartitionKeepsOrder(s: seq<Process>, t: int)
    ensures IsSubsequence(Partition(s, t).admitted, s)
    ensures IsSubsequence(Partition(s, t).rest, s)
    decreases |s|
  {
    if s != [] {
      var init := s[..|s| - 1];
      var p := s[|s| - 1];
      assert s == init + [p];
      PartitionKeepsOrder(init, t);
      PartitionSnoc(init, p, t);
      SubsequenceSnoc(Partition(init, t).admitted, init, p);
      SubsequenceSnoc(Partition(init, t).rest, init, p);
    }
  }

  lemma ScanAdvance(s: seq<Process>, k: int, t: int)
    requires 0 <= k < |s|
    ensures Partition(s[..k + 1], t)
            == if s[k].arrival <= t then Split(Partition(s[..k], t).admitted + [s[k]], Partition(s[..k], t).rest)
               else Split(Partition(s[..k], t).admitted, Partition(s[..k], t).rest + [s[k]])
  {
    assert s[..k + 1] == s[..k] + [s[k]];
    PartitionSnoc(s[..k], s[k], t);
  }

  lemma SuffixStep(a: seq<Process>, i: int, b: seq<Process>, k: int)
    requires 0 <= i < |a| && 0 <= k <= |b| && a[i..] == b[k..]
    ensures k < |b| && a[i] == b[k] && a[i + 1..] == b[k + 1..]
  {
    assert a[i..][0] == a[i];
    assert a[i + 1..] == a[i..][1..];
  }

  lemma EraseAt(a: seq<Process>, i: int)
    requires 0 <= i < |a|
    ensures (a[..i] + a[i + 1..])[..i] == a[..i]
    ensures (a[..i] + a[i + 1..])[i..] == a[i + 1..]
  {
  }

  lemma ConcatAssociates<T>(a: seq<T>, b: seq<T>, c: seq<T>)
    ensures (a + b) + c == a + (b + c)
  {
  }

  /**
   * The scan as written: an iterator over the pending vector that erases an
   * arrived record (pushing it onto the ready queue) or steps past it.
   */
  method AdmitScan(processes: seq<Process>, readyQueue: seq<Process>, currentTime: int)
    returns (pending: seq<Process>, queue: seq<Process>)
    ensures queue == readyQueue + Partition(processes, currentTime).admitted
    ensures pending == Partition(processes, currentTime).rest
  {
    pending := processes;
    queue := readyQueue;
    var i := 0;
    ghost var k := 0;
    ghost var seen := Split([], []);
    while i < |pending|
      invariant 0 <= i <= |pending| && 0 <= k <= |processes|
      invariant seen == Partition(processes[..k], currentTime)
      invariant pending[..i] == seen.rest
      invariant pending[i..] == processes[k..]
      invariant queue == readyQueue + seen.admitted
      decreases |pending| - i
    {
      ScanAdvance(processes, k, currentTime);
      SuffixStep(pending, i, processes, k);
      var p := pending[i];
      if p.arrival <= currentTime {
        ConcatAssociates(readyQueue, seen.admitted, [p]);
        queue := queue + [p];
        seen := Split(seen.admitted + [p], seen.rest);
        EraseAt(pending, i);
        pending := pending[..i] + pending[i + 1..];
      } else {
        assert pending[..i + 1] == pending[..i] + [p];
        seen := Split(seen.admitted, seen.rest + [p]);
        i := i + 1;
      }
      k := k + 1;
    }
    assert processes[..k] == processes;
  }
}
