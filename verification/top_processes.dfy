/** The chat assistant's "most CPU" answer: a copy of the process table sorted by
    descending CPU with JavaScript's stable `Array.prototype.sort` and the
    comparator `(a, b) => b.cpu - a.cpu`, cut to its first three entries. */
module TopProcesses {
  import opened Processes

  /** How many processes the answer lists. */
  const TopCount: nat := 3

  /** CPU never increases along `s`. */
  predicate SortedByCpuDesc(s: seq<Process>) {
    forall i, j :: 0 <= i < j < |s| ==> s[i].cpu >= s[j].cpu
  }

  /** The entries of `s` whose CPU is exactly `c`, in their order in `s`. */
  function WithCpu(s: seq<Process>, c: real): (r: seq<Process>)
    ensures forall p :: p in r ==> p in s && p.cpu == c
  {
    if |s| == 0 then []
    else if s[0].cpu == c then [s[0]] + WithCpu(s[1..], c)
    else WithCpu(s[1..], c)
  }

  /** Places `x` in front of the first entry of `s` whose CPU is not higher than its
      own, so `x` precedes every entry of equal CPU. */
  function Insert(x: Process, s: seq<Process>): (r: seq<Process>)
    ensures |r| == |s| + 1
  {
    if |s| == 0 || s[0].cpu <= x.cpu then [x] + s
    else [s[0]] + Insert(x, s[1..])
  }

  /** Insertion adds exactly `x`. */
  lemma {:induction false} InsertMultiset(x: Process, s: seq<Process>)
    ensures multiset(Insert(x, s)) == multiset(s) + multiset{x}
  {
    if |s| == 0 || s[0].cpu <= x.cpu {
    } else {
      InsertMultiset(x, s[1..]);
      assert s == [s[0]] + s[1..];
    }
  }

  /** Insertion into a sorted sequence keeps it sorted. */
  lemma {:induction false} InsertSorted(x: Process, s: seq<Process>)
    requires SortedByCpuDesc(s)
    ensures SortedByCpuDesc(Insert(x, s))
  {
    if |s| == 0 || s[0].cpu <= x.cpu {
    } else {
      var rest := Insert(x, s[1..]);
      InsertSorted(x, s[1..]);
      InsertMultiset(x, s[1..]);
      forall i | 0 <= i < |rest| ensures rest[i].cpu <= s[0].cpu {
        assert rest[i] in multiset(rest);
        assert rest[i] == x || rest[i] in multiset(s[1..]);
      }
    }
  }

  /** Insertion is stable: within the CPU class of `x`, `x` goes first and the
      other entries keep their order; every other class is untouched. */
  lemma {:induction false} InsertStable(x: Process, s: seq<Process>, c: real)
    ensures WithCpu(Insert(x, s), c) == if x.cpu == c then [x] + WithCpu(s, c) else WithCpu(s, c)
  {
    if |s| == 0 || s[0].cpu <= x.cpu {
      assert ([x] + s)[1..] == s;
    } else {
      var r := Insert(x, s);
      InsertStable(x, s[1..], c);
      assert r[1..] == Insert(x, s[1..]);
    }
  }

  /** Sort by descending CPU (insertion sort from the back); `SortStable` shows the
      sort is stable, as JavaScript's `Array.prototype.sort` is required to be. */
  function SortByCpuDesc(s: seq<Process>): (r: seq<Process>)
    ensures SortedByCpuDesc(r)
    ensures multiset(r) == multiset(s)
    ensures |r| == |s|
  {
    if |s| == 0 then []
    else
      var rest := SortByCpuDesc(s[1..]);
      InsertSorted(s[0], rest);
      InsertMultiset(s[0], rest);
      assert s == [s[0]] + s[1..];
      Insert(s[0], rest)
  }

  /** Stability, class by class: the entries of each CPU value leave the sort in the
      order they entered it. */
  lemma {:induction false} SortStable(s: seq<Process>, c: real)
    ensures WithCpu(SortByCpuDesc(s), c) == WithCpu(s, c)
  {
    if |s| > 0 {
      SortStable(s[1..], c);
      InsertStable(s[0], SortByCpuDesc(s[1..]), c);
    }
  }

  /** The first `k` entries of a sorted permutation of `s` are a sorted part of `s`, and
      nothing left out of them has more CPU than any of them. */
  lemma SortedPrefix(s: seq<Process>, sorted: seq<Process>, k: nat)
    requires SortedByCpuDesc(sorted) && multiset(sorted) == multiset(s) && k <= |sorted|
    ensures SortedByCpuDesc(sorted[..k])
    ensures multiset(sorted[..k]) <= multiset(s)
    ensures forall p, i :: p in multiset(s) - multiset(sorted[..k]) && 0 <= i < k ==> p.cpu <= sorted[..k][i].cpu
  {
    var r := sorted[..k];
    assert sorted == r + sorted[k..];
    assert multiset(s) - multiset(r) == multiset(sorted[k..]);
    forall p, i | p in multiset(sorted[k..]) && 0 <= i < k ensures p.cpu <= r[i].cpu {
      assert p in sorted[k..];
      var j :| 0 <= j < |sorted| - k && sorted[k..][j] == p;
      assert sorted[k + j] == p;
    }
  }

  /** The processes the "most CPU" answer lists. Reading the input does not change it:
      the source sorts a copy (`[...processes]`), which a value sequence is anyway. */
  function Top(s: seq<Process>): (r: seq<Process>)
    ensures |r| == if |s| < TopCount then |s| else TopCount
    ensures SortedByCpuDesc(r)
    ensures multiset(r) <= multiset(s)
    ensures forall p, i :: p in multiset(s) - multiset(r) && 0 <= i < |r| ==> p.cpu <= r[i].cpu
  {
    var sorted := SortByCpuDesc(s);
    var k := if |s| < TopCount then |s| else TopCount;
    SortedPrefix(s, sorted, k);
    sorted[..k]
  }

  /** Taking a prefix takes a prefix of every CPU class. */
  lemma {:induction false} WithCpuOfPrefix(a: seq<Process>, k: nat, c: real)
    requires k <= |a|
    ensures WithCpu(a[..k], c) <= WithCpu(a, c)
  {
    if k > 0 {
      WithCpuOfPrefix(a[1..], k - 1, c);
      assert a[..k][1..] == a[1..][..k - 1];
    }
  }

  /** Ties are broken by input order: within each CPU value, the listed processes are
      the first ones of that value in the input. */
  lemma TopTiesByInputOrder(s: seq<Process>, c: real)
    ensures WithCpu(Top(s), c) <= WithCpu(s, c)
  {
    var k := if |s| < TopCount then |s| else TopCount;
    WithCpuOfPrefix(SortByCpuDesc(s), k, c);
    SortStable(s, c);
  }
}
