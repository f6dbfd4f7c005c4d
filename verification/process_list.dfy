/** The process-list page: the latest process table from the stats stream and a
    case-insensitive name search over it. */
module ProcessList {
  import opened Text
  import opened Processes

  /** `a` can be obtained from `b` by deleting elements, keeping the order of the rest. */
  predicate IsSubsequence<T(==)>(a: seq<T>, b: seq<T>)
    decreases |b|
  {
    if |b| == 0 then |a| == 0
    else (|a| > 0 && a[0] == b[0] && IsSubsequence(a[1..], b[1..])) || IsSubsequence(a, b[1..])
  }

  /** The search predicate: the lower-cased name contains the lower-cased term. */
  predicate Matches(p: Process, term: string) {
    Includes(ToLower(p.name), ToLower(term))
  }

  /** `processes.filter(p => p.name.toLowerCase().includes(term.toLowerCase()))`:
      an order-preserving selection of the input. `FilterSoundComplete` and
      `FilterKeepsOccurrences` say which processes it selects. */
  function Filter(ps: seq<Process>, term: string): (r: seq<Process>)
    ensures IsSubsequence(r, ps)
  {
    if |ps| == 0 then []
    else if Matches(ps[0], term) then [ps[0]] + Filter(ps[1..], term)
    else Filter(ps[1..], term)
  }

  /** Soundness and completeness: a process is shown exactly when it is in the table and
      its lower-cased name contains the lower-cased term. */
  lemma {:induction false} FilterSoundComplete(ps: seq<Process>, term: string)
    ensures forall p :: p in Filter(ps, term) <==> p in ps && Matches(p, term)
  {
    if |ps| > 0 {
      FilterSoundComplete(ps[1..], term);
      assert ps == [ps[0]] + ps[1..];
    }
  }

  /** A matching process is shown as often as it occurs in the table, any other never. */
  lemma {:induction false} FilterKeepsOccurrences(ps: seq<Process>, term: string)
    ensures forall p :: multiset(Filter(ps, term))[p] == if Matches(p, term) then multiset(ps)[p] else 0
  {
    if |ps| > 0 {
      FilterKeepsOccurrences(ps[1..], term);
      assert ps == [ps[0]] + ps[1..];
    }
  }

  /** A subsequence is never longer than the sequence it is taken from. */
  lemma {:induction false} SubsequenceLength<T>(a: seq<T>, b: seq<T>)
    requires IsSubsequence(a, b)
    ensures |a| <= |b|
    decreases |b|
  {
    if |b| > 0 {
      if |a| > 0 && a[0] == b[0] && IsSubsequence(a[1..], b[1..]) {
        SubsequenceLength(a[1..], b[1..]);
      } else {
        SubsequenceLength(a, b[1..]);
      }
    }
  }

  /** Filtering never lengthens the list. */
  lemma {:induction false} FilterLength(ps: seq<Process>, term: string)
    ensures |Filter(ps, term)| <= |ps|
  {
    SubsequenceLength(Filter(ps, term), ps);
  }

  /** An empty search box shows the whole list, in order. */
  lemma {:induction false} FilterEmptyTerm(ps: seq<Process>)
    ensures Filter(ps, "") == ps
  {
    if |ps| > 0 {
      IncludesEmpty(ToLower(ps[0].name));
      FilterEmptyTerm(ps[1..]);
    }
  }

  /** Filtering the filtered list again with the same term changes nothing. */
  lemma {:induction false} FilterIdempotent(ps: seq<Process>, term: string)
    ensures Filter(Filter(ps, term), term) == Filter(ps, term)
  {
    if |ps| > 0 {
      FilterIdempotent(ps[1..], term);
    }
  }

  /** The search ignores the case of the term: terms with the same lower-case form
      give the same list. */
  lemma {:induction false} FilterTermCaseInsensitive(ps: seq<Process>, t1: string, t2: string)
    requires ToLower(t1) == ToLower(t2)
    ensures Filter(ps, t1) == Filter(ps, t2)
  {
    if |ps| > 0 {
      FilterTermCaseInsensitive(ps[1..], t1, t2);
    }
  }

  /** Page state: the latest process table and the search box contents. */
  datatype View = View(processes: seq<Process>, searchTerm: string)

  /** Both pieces of state start empty. */
  function Initial(): (v: View)
    ensures v.processes == [] && v.searchTerm == ""
    ensures |Visible(v)| == 0
  {
    View([], "")
  }

  /** A `systemStats` message replaces the table wholesale; the search term is kept. */
  function OnStats(v: View, list: seq<Process>): (r: View)
    ensures r.processes == list
    ensures r.searchTerm == v.searchTerm
    ensures Visible(r) == Filter(list, v.searchTerm)
  {
    v.(processes := list)
  }

  /** Typing in the search box replaces the term; the table is kept. */
  function OnSearch(v: View, term: string): (r: View)
    ensures r.processes == v.processes
    ensures r.searchTerm == term
    ensures Visible(r) == Filter(v.processes, term)
  {
    v.(searchTerm := term)
  }

  /** The rows the page shows. */
  function Visible(v: View): seq<Process> {
    Filter(v.processes, v.searchTerm)
  }

  /** No accumulation across updates: after an update the visible rows depend only on
      the new table and the search term, not on any earlier table. */
  lemma OnStatsForgetsHistory(v1: View, v2: View, list: seq<Process>)
    requires v1.searchTerm == v2.searchTerm
    ensures Visible(OnStats(v1, list)) == Visible(OnStats(v2, list))
    ensures forall p :: p in Visible(OnStats(v1, list)) ==> p in list
  {
    FilterSoundComplete(list, v1.searchTerm);
  }
}
