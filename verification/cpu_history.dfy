/** The dashboard's CPU chart: a fixed window of time labels and CPU readings that
    shifts by one slot on every stats message, dropping the oldest reading. */
module CpuHistory {

  /** Number of slots in the chart. */
  const WindowSize: nat := 30

  /** The chart's single line (`datasets[0]`); `seriesLabel` is its `label` field. Only
      `data` changes after start-up. */
  datatype Dataset = Dataset(
    seriesLabel: string,
    data: seq<real>,
    borderColor: string,
    backgroundColor: string,
    tension: real,
    fill: bool)

  /** Time labels (opaque strings; the clock is outside the model) and the line. */
  datatype Chart = Chart(labels: seq<string>, dataset: Dataset)

  /** One stats message as the chart sees it: the local time label and the CPU load. */
  datatype Reading = Reading(time: string, cpu: real)

  /** `n` copies of `x` (`Array(n).fill(x)`). */
  function Repeat<T>(n: nat, x: T): (r: seq<T>)
    ensures |r| == n
    ensures forall i :: 0 <= i < n ==> r[i] == x
  {
    seq(n, _ => x)
  }

  /** `[...s.slice(1), x]`: the oldest element (if there is one) leaves, `x` enters last. */
  function Shift<T>(s: seq<T>, x: T): (r: seq<T>)
    ensures |r| == if |s| == 0 then 1 else |s|
    ensures r[|r| - 1] == x
    ensures forall i :: 0 <= i < |r| - 1 ==> r[i] == s[i + 1]
  {
    (if |s| == 0 then [] else s[1..]) + [x]
  }

  /** Both sequences fill the window exactly. */
  predicate Aligned(c: Chart) {
    |c.labels| == WindowSize && |c.dataset.data| == WindowSize
  }

  /** The chart before any message: empty labels, zero readings. */
  function Initial(): (c: Chart)
    ensures Aligned(c)
    ensures forall i :: 0 <= i < WindowSize ==> c.labels[i] == "" && c.dataset.data[i] == 0.0
    ensures c.dataset.seriesLabel == "CPU Usage %" && c.dataset.tension == 0.4 && c.dataset.fill
    ensures c.dataset.borderColor == "#64FFDA" && c.dataset.backgroundColor == "rgba(100, 255, 218, 0.1)"
  {
    Chart(
      Repeat(WindowSize, ""),
      Dataset("CPU Usage %", Repeat(WindowSize, 0.0), "#64FFDA", "rgba(100, 255, 218, 0.1)", 0.4, true))
  }

  /** The `systemStats` handler's chart update: labels and readings shift together;
      the line's other settings are carried over from the previous chart. */
  function Update(c: Chart, reading: Reading): (r: Chart)
    ensures |r.labels| == (if |c.labels| == 0 then 1 else |c.labels|)
    ensures |r.dataset.data| == (if |c.dataset.data| == 0 then 1 else |c.dataset.data|)
    ensures Aligned(c) ==> Aligned(r)
    ensures |c.labels| == |c.dataset.data| ==> |r.labels| == |r.dataset.data|
    ensures r.dataset == c.dataset.(data := r.dataset.data)
    ensures r.labels[|r.labels| - 1] == reading.time
    ensures r.dataset.data[|r.dataset.data| - 1] == reading.cpu
    ensures forall i :: 0 <= i < |r.dataset.data| - 1 ==> r.dataset.data[i] == c.dataset.data[i + 1]
    ensures forall i :: 0 <= i < |r.labels| - 1 ==> r.labels[i] == c.labels[i + 1]
  {
    Chart(Shift(c.labels, reading.time), c.dataset.(data := Shift(c.dataset.data, reading.cpu)))
  }

  /** The chart after the messages `rs`, in arrival order. */
  function Feed(c: Chart, rs: seq<Reading>): Chart
    decreases |rs|
  {
    if |rs| == 0 then c else Feed(Update(c, rs[0]), rs[1..])
  }

  /** Any number of updates keeps labels and data the same length as each other, and a
      full window full. */
  lemma {:induction false} FeedKeepsAlignment(c: Chart, rs: seq<Reading>)
    ensures |c.labels| == |c.dataset.data| ==> |Feed(c, rs).labels| == |Feed(c, rs).dataset.data|
    ensures Aligned(c) ==> Aligned(Feed(c, rs))
    decreases |rs|
  {
    if |rs| > 0 {
      FeedKeepsAlignment(Update(c, rs[0]), rs[1..]);
    }
  }

  /** Shifting in every element of `xs`, one at a time. */
  function ShiftAll<T>(w: seq<T>, xs: seq<T>): seq<T>
    decreases |xs|
  {
    if |xs| == 0 then w else ShiftAll(Shift(w, xs[0]), xs[1..])
  }

  /** A non-empty window that has had `xs` shifted in holds the last `|w|` elements
      of `w + xs`. */
  lemma {:induction false} ShiftAllIsSuffix<T>(w: seq<T>, xs: seq<T>)
    requires |w| > 0
    ensures ShiftAll(w, xs) == (w + xs)[|xs|..]
    decreases |xs|
  {
    if |xs| > 0 {
      var w' := Shift(w, xs[0]);
      ShiftAllIsSuffix(w', xs[1..]);
      assert w' + xs[1..] == (w + xs)[1..];
      assert (w + xs)[1..][|xs| - 1..] == (w + xs)[|xs|..];
    }
  }

  function Times(rs: seq<Reading>): (ts: seq<string>)
    ensures |ts| == |rs| && forall i :: 0 <= i < |rs| ==> ts[i] == rs[i].time
  {
    seq(|rs|, i requires 0 <= i < |rs| => rs[i].time)
  }

  function Cpus(rs: seq<Reading>): (cs: seq<real>)
    ensures |cs| == |rs| && forall i :: 0 <= i < |rs| ==> cs[i] == rs[i].cpu
  {
    seq(|rs|, i requires 0 <= i < |rs| => rs[i].cpu)
  }

  /** Feeding messages shifts their labels into the labels and their readings into the
      data, and leaves the line's settings alone. */
  lemma {:induction false} FeedShiftsBoth(c: Chart, rs: seq<Reading>)
    ensures Feed(c, rs).labels == ShiftAll(c.labels, Times(rs))
    ensures Feed(c, rs).dataset.data == ShiftAll(c.dataset.data, Cpus(rs))
    ensures Feed(c, rs).dataset == c.dataset.(data := Feed(c, rs).dataset.data)
    decreases |rs|
  {
    if |rs| > 0 {
      FeedShiftsBoth(Update(c, rs[0]), rs[1..]);
      assert Times(rs)[1..] == Times(rs[1..]);
      assert Cpus(rs)[1..] == Cpus(rs[1..]);
    }
  }

  /** The last `n` elements of `n` copies of `fill` followed by `xs`. */
  lemma SuffixOfPadded<T>(n: nat, fill: T, xs: seq<T>)
    ensures |xs| >= n ==> (Repeat(n, fill) + xs)[|xs|..] == xs[|xs| - n..]
    ensures |xs| < n ==> (Repeat(n, fill) + xs)[|xs|..] == Repeat(n - |xs|, fill) + xs
  {
    var w := Repeat(n, fill);
    var k := |xs|;
    if k < n {
      assert (w + xs)[k..] == w[k..] + xs;
      assert w[k..] == Repeat(n - k, fill);
    } else {
      assert (w + xs)[k..] == xs[k - n..];
    }
  }

  /** A full window of `n` copies of `fill` that has had `xs` shifted in holds the
      last `n` elements of `xs`, padded in front with `fill` while there are fewer. */
  lemma ShiftAllIntoFilled<T>(n: nat, fill: T, xs: seq<T>)
    requires n > 0
    ensures |xs| >= n ==> ShiftAll(Repeat(n, fill), xs) == xs[|xs| - n..]
    ensures |xs| < n ==> ShiftAll(Repeat(n, fill), xs) == Repeat(n - |xs|, fill) + xs
  {
    ShiftAllIsSuffix(Repeat(n, fill), xs);
    SuffixOfPadded(n, fill, xs);
  }

  /** A chart whose window is full of empty labels and zero readings, after the
      messages `rs`: see `FeedFromInitial`. */
  lemma FeedFromBlank(c: Chart, rs: seq<Reading>)
    requires c.labels == Repeat(WindowSize, "") && c.dataset.data == Repeat(WindowSize, 0.0)
    ensures Aligned(Feed(c, rs))
    ensures |rs| >= WindowSize ==>
      && Feed(c, rs).dataset.data == Cpus(rs)[|rs| - WindowSize..]
      && Feed(c, rs).labels == Times(rs)[|rs| - WindowSize..]
    ensures |rs| < WindowSize ==>
      && Feed(c, rs).dataset.data == Repeat(WindowSize - |rs|, 0.0) + Cpus(rs)
      && Feed(c, rs).labels == Repeat(WindowSize - |rs|, "") + Times(rs)
    ensures Feed(c, rs).dataset == c.dataset.(data := Feed(c, rs).dataset.data)
  {
    FeedShiftsBoth(c, rs);
    ShiftAllIntoFilled(WindowSize, "", Times(rs));
    ShiftAllIntoFilled(WindowSize, 0.0, Cpus(rs));
  }

  /** From the initial chart, after `k` messages the data window is the last 30
      readings in arrival order when `k >= 30`, and otherwise `30 - k` zeros followed
      by all `k` readings; the labels move the same way, both lengths stay 30 and the
      line's settings stay as they started. */
  lemma FeedFromInitial(rs: seq<Reading>)
    ensures Aligned(Feed(Initial(), rs))
    ensures |rs| >= WindowSize ==>
      && Feed(Initial(), rs).dataset.data == Cpus(rs)[|rs| - WindowSize..]
      && Feed(Initial(), rs).labels == Times(rs)[|rs| - WindowSize..]
    ensures |rs| < WindowSize ==>
      && Feed(Initial(), rs).dataset.data == Repeat(WindowSize - |rs|, 0.0) + Cpus(rs)
      && Feed(Initial(), rs).labels == Repeat(WindowSize - |rs|, "") + Times(rs)
    ensures Feed(Initial(), rs).dataset == Initial().dataset.(data := Feed(Initial(), rs).dataset.data)
  {
    FeedFromBlank(Initial(), rs);
  }
}
