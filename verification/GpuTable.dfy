/** gpu.c: the table of claimed devices, and the shuffle of jobs.c. */
module GpuTable {
  import opened JobSpec

  class Devices {
    const used: array<bool>

    constructor (total: nat)
      ensures used.Length == total && Claimed() == {} && fresh(used)
    {
      used := new bool[total](_ => false);
    }

    ghost function Claimed(): set<int>
      reads used
    {
      set i | 0 <= i < used.Length && used[i]
    }

    /** broadcastUsedGpus and broadcastFreeGpus; `ok` is false when an id lies outside the table. */
    method Broadcast(list: seq<int>, mark: bool) returns (ok: bool)
      modifies used
      ensures ok <==> InRange(list, used.Length)
      ensures ok ==> Claimed() == if mark then old(Claimed()) + ToSet(list) else old(Claimed()) - ToSet(list)
    {
      var i := 0;
      while i < |list|
        invariant 0 <= i <= |list| && InRange(list[..i], used.Length)
        invariant forall g :: 0 <= g < used.Length ==> used[g] == if g in list[..i] then mark else old(used[g])
      {
        if !(0 <= list[i] < used.Length) {
          return false;
        }
        used[list[i]] := mark;
        i := i + 1;
      }
      assert list[..i] == list;
      ok := true;
    }

    method IsInUse(id: int) returns (inUse: bool)
      requires 0 <= id < used.Length
      ensures inUse <==> id in Claimed()
    {
      inUse := used[id];
    }
  }

  const RAND_MAX := 0x7FFF_FFFF

  /** The index shuffle draws stays below its range, whatever rand() returns. */
  lemma DrawInRange(r: nat, m: nat)
    requires r <= RAND_MAX && m > 0
    ensures r / (RAND_MAX / m + 1) < m
  {
    var d := RAND_MAX / m + 1;
    assert RAND_MAX < d * m;
    assert (r / d) * d <= r;
  }

  lemma SwapPermutes<T>(s: seq<T>, i: nat, j: nat)
    requires i < |s| && j < |s|
    ensures multiset(s[i := s[j]][j := s[i]]) == multiset(s)
  {
  }

  /** shuffle: the array is permuted, whatever the numbers drawn are. */
  method Shuffle(a: array<int>, draws: seq<nat>)
    requires |draws| >= a.Length && forall i :: 0 <= i < |draws| ==> draws[i] <= RAND_MAX
    modifies a
    ensures multiset(a[..]) == multiset(old(a[..]))
  {
    var n := a.Length;
    if n > 1 {
      var i := 0;
      while i < n - 1
        invariant 0 <= i <= n - 1
        invariant multiset(a[..]) == multiset(old(a[..]))
      {
        DrawInRange(draws[i], n - i);
        var j := i + draws[i] / (RAND_MAX / (n - i) + 1);
        ghost var before := a[..];
        SwapPermutes(before, i, j);
        var t := a[j];
        a[j] := a[i];
        a[i] := t;
        assert a[..] == before[i := before[j]][j := before[i]];
        i := i + 1;
      }
    }
  }
}
