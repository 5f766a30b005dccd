/** What the running peaks mean: maxima over the whole history, independent of any order. */
module Accounting {
  import opened Sequences
  import opened Units
  import opened Metrics

  // ----- exact sums

  function Add(a: Totals, b: Totals): Totals {
    Totals(a.mem + b.mem, a.cpu + b.cpu, a.pids + b.pids, a.netRx + b.netRx, a.netTx + b.netTx,
           a.blockRead + b.blockRead, a.blockWrite + b.blockWrite)
  }

  /** The sum of a sample without 64-bit wrap-around. */
  function Exact(sample: Sample): Totals {
    if sample == [] then ZERO else Add(Exact(sample[..|sample| - 1]), Reading(sample[|sample| - 1]))
  }

  function Wrapped(t: Totals): Totals {
    Totals(Wrap(t.mem), t.cpu, Wrap(t.pids), Wrap(t.netRx), Wrap(t.netTx), Wrap(t.blockRead), Wrap(t.blockWrite))
  }

  predicate Fits(t: Totals) {
    && IsInt64(t.mem) && IsInt64(t.pids) && IsInt64(t.netRx) && IsInt64(t.netTx)
    && IsInt64(t.blockRead) && IsInt64(t.blockWrite)
  }

  lemma PlusWrapped(a: Totals, b: Totals)
    ensures Plus(Wrapped(a), b) == Wrapped(Add(a, b))
  {
    hide Wrap;
    WrapAdd(a.mem, b.mem);
    WrapAdd(a.pids, b.pids);
    WrapAdd(a.netRx, b.netRx);
    WrapAdd(a.netTx, b.netTx);
    WrapAdd(a.blockRead, b.blockRead);
    WrapAdd(a.blockWrite, b.blockWrite);
  }

  lemma WrappedFits(t: Totals)
    requires Fits(t)
    ensures Wrapped(t) == t
  {
  }

  /** Only the exact total matters for wrap-around, however far partial sums stray. */
  lemma {:induction false} SumIsExact(sample: Sample)
    ensures Sum(sample) == Wrapped(Exact(sample))
    ensures Fits(Exact(sample)) ==> Sum(sample) == Exact(sample)
  {
    hide Reading, Plus, Add, Wrapped, Fits;
    if sample == [] {
      FitsZero();
      WrappedFits(ZERO);
    } else {
      SumIsExact(sample[..|sample| - 1]);
      PlusWrapped(Exact(sample[..|sample| - 1]), Reading(sample[|sample| - 1]));
    }
    if Fits(Exact(sample)) {
      WrappedFits(Exact(sample));
    }
  }

  lemma FitsZero()
    ensures Fits(ZERO)
  {
  }

  // ----- the order of a sample's entries

  lemma ExactStep(front: Sample, e: Entry)
    ensures Exact(front + [e]) == Add(Exact(front), Reading(e))
  {
    assert (front + [e])[..|front|] == front;
  }

  lemma AddExchange(a: Totals, b: Totals, c: Totals)
    ensures Add(Add(a, b), c) == Add(Add(a, c), b)
  {
  }

  lemma {:induction false} ExactInserted(front: Sample, e: Entry, back: Sample)
    ensures Exact(front + ([e] + back)) == Add(Exact(front + back), Reading(e))
    decreases |back|
  {
    hide Reading, Exact, Add;
    if back == [] {
      assert [e] + back == [e] && front + back == front;
      ExactStep(front, e);
    } else {
      var init, last := SplitLast(front, back);
      assert front + ([e] + back) == front + ([e] + init) + [last];
      ExactInserted(front, e, init);
      ExactStep(front + ([e] + init), last);
      ExactStep(front + init, last);
      AddExchange(Exact(front + init), Reading(e), Reading(last));
    }
  }

  /** The order of a sample's entries does not matter. */
  lemma {:induction false} ExactPermuted(s: Sample, t: Sample)
    requires multiset(s) == multiset(t)
    ensures Exact(s) == Exact(t)
    decreases |s|
  {
    hide Reading, Add, Exact;
    assert |s| == |multiset(s)| == |t|;
    if s == [] {
      assert s == t;
    } else {
      var front, back := TakeOut(s, t);
      assert s == [] + ([s[0]] + s[1..]) && [] + s[1..] == s[1..];
      ExactInserted([], s[0], s[1..]);
      ExactInserted(front, s[0], back);
      ExactPermuted(s[1..], front + back);
    }
  }

  lemma SumPermuted(s: Sample, t: Sample)
    requires multiset(s) == multiset(t)
    ensures Sum(s) == Sum(t)
  {
    SumIsExact(s);
    SumIsExact(t);
    ExactPermuted(s, t);
  }

  // ----- peaks are maxima

  /** `peak` is the greatest of zero and the given values. */
  ghost predicate IsPeak(peak: real, values: iset<real>) {
    && peak >= 0.0
    && (forall v <- values :: v <= peak)
    && (peak == 0.0 || peak in values)
  }

  lemma PeakUnique(p: real, q: real, values: iset<real>)
    requires IsPeak(p, values) && IsPeak(q, values)
    ensures p == q
  {
  }

  datatype Quantity = TotalMem | TotalCPU | TotalPIDs | NetRx | NetTx | BlockRead | BlockWrite

  function Get(t: Totals, q: Quantity): real {
    match q
    case TotalMem => t.mem as real
    case TotalCPU => t.cpu
    case TotalPIDs => t.pids as real
    case NetRx => t.netRx as real
    case NetTx => t.netTx as real
    case BlockRead => t.blockRead as real
    case BlockWrite => t.blockWrite as real
  }

  /** One quantity of an entry. */
  function Amount(e: Entry, q: Quantity): real {
    match q
    case TotalMem => Memory(e) as real
    case TotalCPU => CPU(e)
    case TotalPIDs => PIDs(e) as real
    case NetRx => Pair(e.netIO).0 as real
    case NetTx => Pair(e.netIO).1 as real
    case BlockRead => Pair(e.blockIO).0 as real
    case BlockWrite => Pair(e.blockIO).1 as real
  }

  function SumOf(sample: Sample, q: Quantity): real {
    if sample == [] then 0.0 else SumOf(sample[..|sample| - 1], q) + Amount(sample[|sample| - 1], q)
  }

  /** Every total of a sample is the sum of its own quantity over the entries. */
  lemma {:induction false} ExactIsSum(sample: Sample, q: Quantity)
    ensures Get(Exact(sample), q) == SumOf(sample, q)
  {
    hide Memory, CPU, PIDs, Pair;
    if sample != [] {
      ExactIsSum(sample[..|sample| - 1], q);
    }
  }

  /** One quantity's totals, over all samples of a run. */
  ghost function TotalsSeen(history: seq<Sample>, q: Quantity): iset<real> {
    iset sample | sample in history :: Get(Sum(sample), q)
  }

  /** The memory readings of one container, over all samples of a run. */
  ghost function MemorySeen(history: seq<Sample>, id: string): iset<real> {
    iset sample, e | sample in history && e in sample && ContainerID(e) == id :: Memory(e) as real
  }

  lemma TotalsSeenMore(history: seq<Sample>, last: Sample, q: Quantity)
    ensures TotalsSeen(history + [last], q) == TotalsSeen(history, q) + iset{Get(Sum(last), q)}
  {
    hide Sum;
    assert last in history + [last];
    forall sample | sample in history
      ensures sample in history + [last]
    {
    }
  }

  lemma HigherPeak(peak: Totals, sum: Totals, q: Quantity, values: iset<real>)
    requires IsPeak(Get(peak, q), values)
    ensures IsPeak(Get(Higher(peak, sum), q), values + iset{Get(sum, q)})
  {
  }

  /** Every total's peak is the greatest of zero and that total over the whole history. */
  lemma {:induction false} TotalsArePeaks(history: seq<Sample>, inspect: Inspect, q: Quantity)
    ensures IsPeak(Get(Folded(history, inspect).totals, q), TotalsSeen(history, q))
  {
    hide Sum, Higher, Known, Raised;
    if history != [] {
      var front, last := history[..|history| - 1], history[|history| - 1];
      TotalsArePeaks(front, inspect, q);
      assert history == front + [last];
      TotalsSeenMore(front, last, q);
      HigherPeak(Folded(front, inspect).totals, Sum(last), q, TotalsSeen(front, q));
    }
  }

  /** The reading of one entry, if it is of the given container. */
  function ReadingOf(e: Entry, id: string): iset<real> {
    if ContainerID(e) == id then iset{Memory(e) as real} else iset{}
  }

  lemma MemorySeenEntry(front: Sample, e: Entry, id: string)
    ensures MemorySeen([front + [e]], id) == MemorySeen([front], id) + ReadingOf(e, id)
  {
    hide ContainerID, Memory;
    var sample := front + [e];
    assert sample in [sample] && front in [front] && e in sample;
    assert forall d :: d in sample <==> d in front || d == e;
  }

  lemma {:induction false} RaisedIsPeak(peakMem: map<string, int>, sample: Sample, id: string, values: iset<real>)
    requires IsPeak(PeakOf(peakMem, id) as real, values)
    ensures IsPeak(PeakOf(Raised(peakMem, sample), id) as real, values + MemorySeen([sample], id))
    decreases |sample|
  {
    hide ContainerID, Memory;
    if sample == [] {
      assert values + MemorySeen([sample], id) == values;
    } else {
      var front, e := sample[..|sample| - 1], sample[|sample| - 1];
      RaisedIsPeak(peakMem, front, id, values);
      assert sample == front + [e];
      MemorySeenEntry(front, e, id);
    }
  }

  lemma MemorySeenMore(history: seq<Sample>, last: Sample, id: string)
    ensures MemorySeen(history + [last], id) == MemorySeen(history, id) + MemorySeen([last], id)
  {
    hide ContainerID, Memory;
    assert forall sample :: sample in history + [last] <==> sample in history || sample in [last];
  }

  /** Every container's peak is the greatest of zero and its memory readings over the whole history. */
  lemma {:induction false} ContainersArePeaks(history: seq<Sample>, inspect: Inspect, id: string)
    ensures IsPeak(PeakOf(Folded(history, inspect).peakMem, id) as real, MemorySeen(history, id))
  {
    hide Raised, ContainerID, Memory, Known, Sum;
    if history != [] {
      var front, last := history[..|history| - 1], history[|history| - 1];
      ContainersArePeaks(front, inspect, id);
      assert history == front + [last];
      MemorySeenMore(front, last, id);
      RaisedIsPeak(Folded(front, inspect).peakMem, last, id, MemorySeen(front, id));
    }
  }

  // ----- the order of the samples

  /** The same entries in any order. */
  predicate Reordered(s: Sample, t: Sample) {
    multiset(s) == multiset(t)
  }

  /** The same samples, up to the order of entries within a sample, in any order. */
  ghost predicate SameSamples(h: seq<Sample>, k: seq<Sample>) {
    && (forall s <- h :: exists t <- k :: Reordered(s, t))
    && (forall t <- k :: exists s <- h :: Reordered(s, t))
  }

  lemma {:induction false} RaisedPositive(peakMem: map<string, int>, sample: Sample)
    requires forall id <- peakMem :: peakMem[id] > 0
    ensures forall id <- Raised(peakMem, sample) :: Raised(peakMem, sample)[id] > 0
    decreases |sample|
  {
    hide ContainerID, Memory;
    if sample != [] {
      RaisedPositive(peakMem, sample[..|sample| - 1]);
    }
  }

  lemma {:induction false} FoldedPositive(history: seq<Sample>, inspect: Inspect)
    ensures forall id <- Folded(history, inspect).peakMem :: Folded(history, inspect).peakMem[id] > 0
  {
    hide Raised, Known, Sum;
    if history != [] {
      FoldedPositive(history[..|history| - 1], inspect);
      RaisedPositive(Folded(history[..|history| - 1], inspect).peakMem, history[|history| - 1]);
    }
  }

  lemma TotalsSeenWithin(h: seq<Sample>, k: seq<Sample>, q: Quantity)
    requires SameSamples(h, k)
    ensures TotalsSeen(h, q) <= TotalsSeen(k, q)
  {
    hide Sum, Reordered, Get;
    forall s | s in h
      ensures Get(Sum(s), q) in TotalsSeen(k, q)
    {
      var t :| t in k && Reordered(s, t);
      SumReordered(s, t);
    }
  }

  lemma SumReordered(s: Sample, t: Sample)
    requires Reordered(s, t)
    ensures Sum(s) == Sum(t)
  {
    SumPermuted(s, t);
  }

  lemma MemorySeenWithin(h: seq<Sample>, k: seq<Sample>, id: string)
    requires SameSamples(h, k)
    ensures MemorySeen(h, id) <= MemorySeen(k, id)
  {
    hide ContainerID, Memory, Reordered;
    forall v | v in MemorySeen(h, id)
      ensures v in MemorySeen(k, id)
    {
      var s, e :| s in h && e in s && ContainerID(e) == id && v == Memory(e) as real;
      var t :| t in k && Reordered(s, t);
      SharedEntry(s, t, e);
    }
  }

  lemma SharedEntry(s: Sample, t: Sample, e: Entry)
    requires Reordered(s, t) && e in s
    ensures e in t
  {
    assert e in multiset(s);
  }

  /** Neither the order of entries within a sample nor the order of samples changes any peak. */
  lemma PeaksIgnoreOrder(h: seq<Sample>, k: seq<Sample>, inspect: Inspect)
    requires SameSamples(h, k)
    ensures Folded(h, inspect).totals == Folded(k, inspect).totals
    ensures Folded(h, inspect).peakMem == Folded(k, inspect).peakMem
  {
    var p, r := Folded(h, inspect), Folded(k, inspect);
    hide Folded, SameSamples, Get, PeakOf, IsPeak;
    forall q: Quantity
      ensures Get(p.totals, q) == Get(r.totals, q)
    {
      SameTotalPeak(h, k, inspect, q);
    }
    SameTotals(p.totals, r.totals);
    forall id
      ensures PeakOf(p.peakMem, id) == PeakOf(r.peakMem, id)
    {
      SameContainerPeak(h, k, inspect, id);
    }
    FoldedPositive(h, inspect);
    FoldedPositive(k, inspect);
    SamePeaks(p.peakMem, r.peakMem);
  }

  lemma SameTotalPeak(h: seq<Sample>, k: seq<Sample>, inspect: Inspect, q: Quantity)
    requires SameSamples(h, k)
    ensures Get(Folded(h, inspect).totals, q) == Get(Folded(k, inspect).totals, q)
  {
    hide Folded, SameSamples, Get, IsPeak, TotalsSeen;
    TotalsArePeaks(h, inspect, q);
    TotalsArePeaks(k, inspect, q);
    TotalsSeenWithin(h, k, q);
    SamplesBack(h, k);
    TotalsSeenWithin(k, h, q);
    assert TotalsSeen(h, q) == TotalsSeen(k, q);
    PeakUnique(Get(Folded(h, inspect).totals, q), Get(Folded(k, inspect).totals, q), TotalsSeen(h, q));
  }

  lemma SameContainerPeak(h: seq<Sample>, k: seq<Sample>, inspect: Inspect, id: string)
    requires SameSamples(h, k)
    ensures PeakOf(Folded(h, inspect).peakMem, id) == PeakOf(Folded(k, inspect).peakMem, id)
  {
    hide Folded, SameSamples, PeakOf, IsPeak, MemorySeen;
    ContainersArePeaks(h, inspect, id);
    ContainersArePeaks(k, inspect, id);
    MemorySeenWithin(h, k, id);
    SamplesBack(h, k);
    MemorySeenWithin(k, h, id);
    assert MemorySeen(h, id) == MemorySeen(k, id);
    PeakUnique(PeakOf(Folded(h, inspect).peakMem, id) as real, PeakOf(Folded(k, inspect).peakMem, id) as real,
               MemorySeen(h, id));
  }

  lemma SamplesBack(h: seq<Sample>, k: seq<Sample>)
    requires SameSamples(h, k)
    ensures SameSamples(k, h)
  {
    hide Reordered;
    forall s, t
      ensures Reordered(s, t) <==> Reordered(t, s)
    {
      ReorderedBack(s, t);
    }
  }

  lemma ReorderedBack(s: Sample, t: Sample)
    ensures Reordered(s, t) <==> Reordered(t, s)
  {
  }

  /** Without zeros, a map is determined by what it says of every container. */
  lemma SamePeaks(a: map<string, int>, b: map<string, int>)
    requires (forall id <- a :: a[id] > 0) && (forall id <- b :: b[id] > 0)
    requires forall id :: PeakOf(a, id) == PeakOf(b, id)
    ensures a == b
  {
    assert forall id :: id in a <==> PeakOf(a, id) > 0;
    assert forall id :: id in b <==> PeakOf(b, id) > 0;
  }

  lemma SameTotals(a: Totals, b: Totals)
    requires forall q: Quantity :: Get(a, q) == Get(b, q)
    ensures a == b
  {
    assert Get(a, TotalMem) == Get(b, TotalMem) && Get(a, TotalCPU) == Get(b, TotalCPU);
    assert Get(a, TotalPIDs) == Get(b, TotalPIDs);
    assert Get(a, NetRx) == Get(b, NetRx) && Get(a, NetTx) == Get(b, NetTx);
    assert Get(a, BlockRead) == Get(b, BlockRead) && Get(a, BlockWrite) == Get(b, BlockWrite);
  }

  // ----- metadata

  lemma {:induction false} KnownKeeps(containers: map<string, Info>, sample: Sample, inspect: Inspect, id: string)
    requires id in containers
    ensures id in Known(containers, sample, inspect) && Known(containers, sample, inspect)[id] == containers[id]
    decreases |sample|
  {
    hide ContainerID, Sighted;
    if sample != [] {
      KnownKeeps(containers, sample[..|sample| - 1], inspect, id);
    }
  }

  /** A container's metadata is fixed once it has been seen: no later sample changes it. */
  lemma {:induction false} MetadataFixed(history: seq<Sample>, more: seq<Sample>, inspect: Inspect, id: string)
    requires id in Folded(history, inspect).containers
    ensures id in Folded(history + more, inspect).containers
    ensures Folded(history + more, inspect).containers[id] == Folded(history, inspect).containers[id]
    decreases |more|
  {
    hide Known, Raised, Sum;
    if more == [] {
      assert history + more == history;
    } else {
      var n := |more| - 1;
      MetadataFixed(history, more[..n], inspect, id);
      assert (history + more)[..|history + more| - 1] == history + more[..n];
      KnownKeeps(Folded(history + more[..n], inspect).containers, more[n], inspect, id);
    }
  }

  predicate Names(sample: Sample, id: string) {
    exists e <- sample :: ContainerID(e) == id
  }

  /** A sample makes known exactly the containers it names. */
  lemma {:induction false} SampleKnows(containers: map<string, Info>, sample: Sample, inspect: Inspect, id: string)
    ensures id in Known(containers, sample, inspect) <==> id in containers || Names(sample, id)
    decreases |sample|
  {
    hide ContainerID, Sighted;
    if sample != [] {
      var n := |sample| - 1;
      SampleKnows(containers, sample[..n], inspect, id);
      assert sample == sample[..n] + [sample[n]];
      assert sample[n] in sample;
      if Names(sample[..n], id) {
        var e :| e in sample[..n] && ContainerID(e) == id;
        assert e in sample;
      }
    }
  }

  lemma KnownStep(containers: map<string, Info>, front: Sample, e: Entry, inspect: Inspect)
    ensures Known(containers, front + [e], inspect) ==
            var before := Known(containers, front, inspect);
            if ContainerID(e) in before then before else before[ContainerID(e) := Sighted(e, inspect)]
  {
    assert (front + [e])[..|front|] == front;
  }

  lemma {:induction false} KnownAppend(containers: map<string, Info>, front: Sample, back: Sample, inspect: Inspect)
    ensures Known(containers, front + back, inspect) == Known(Known(containers, front, inspect), back, inspect)
    decreases |back|
  {
    if back == [] {
      assert front + back == front;
    } else {
      hide ContainerID, Sighted, Known;
      var init, last := SplitLast(front, back);
      KnownAppend(containers, front, init, inspect);
      KnownStep(containers, front + init, last, inspect);
      KnownStep(Known(containers, front, inspect), init, last, inspect);
    }
  }

  /** Within a sample, a new container's metadata comes from the first entry that names it. */
  lemma NewFromFirstEntry(containers: map<string, Info>, front: Sample, e: Entry, back: Sample, inspect: Inspect)
    requires ContainerID(e) !in containers && !Names(front, ContainerID(e))
    ensures var known := Known(containers, front + [e] + back, inspect);
            ContainerID(e) in known && known[ContainerID(e)] == Sighted(e, inspect)
  {
    hide ContainerID, Sighted, Known, Names;
    SampleKnows(containers, front, inspect, ContainerID(e));
    KnownStep(containers, front, e, inspect);
    KnownAppend(containers, front + [e], back, inspect);
    KnownKeeps(Known(containers, front + [e], inspect), back, inspect, ContainerID(e));
  }

  /** The containers known are exactly those some entry names. */
  lemma {:induction false} KnownIffNamed(history: seq<Sample>, inspect: Inspect, id: string)
    ensures id in Folded(history, inspect).containers <==> exists s <- history :: Names(s, id)
  {
    hide Raised, Sum, Known, Names;
    if history != [] {
      var n := |history| - 1;
      var known := Folded(history[..n], inspect).containers;
      KnownIffNamed(history[..n], inspect, id);
      assert history == history[..n] + [history[n]];
      SampleKnows(known, history[n], inspect, id);
    }
  }

  lemma FoldedStep(before: seq<Sample>, sample: Sample, inspect: Inspect)
    ensures Folded(before + [sample], inspect).containers ==
            Known(Folded(before, inspect).containers, sample, inspect)
  {
    assert (before + [sample])[..|before|] == before;
  }

  /** Over a whole history, a container's metadata is what was found out at its first sighting: the entry that
      names it when neither the samples before nor the entries before it in its sample do. */
  lemma MetadataFromFirstSighting(before: seq<Sample>, front: Sample, e: Entry, back: Sample, more: seq<Sample>,
                                  inspect: Inspect)
    requires !Names(front, ContainerID(e)) && forall s <- before :: !Names(s, ContainerID(e))
    ensures var containers := Folded(before + [front + [e] + back] + more, inspect).containers;
            ContainerID(e) in containers && containers[ContainerID(e)] == Sighted(e, inspect)
  {
    hide Folded, Known, ContainerID, Sighted, Names;
    KnownIffNamed(before, inspect, ContainerID(e));
    NewFromFirstEntry(Folded(before, inspect).containers, front, e, back, inspect);
    FoldedStep(before, front + [e] + back, inspect);
    MetadataFixed(before + [front + [e] + back], more, inspect, ContainerID(e));
  }

  // ----- per-container peaks and the total

  /** The sum of some containers' peaks. */
  ghost function PeakSum(peakMem: map<string, int>, ids: set<string>): int
    decreases |ids|
  {
    if ids == {} then 0
    else
      var id :| id in ids;
      PeakOf(peakMem, id) + PeakSum(peakMem, ids - {id})
  }

  lemma {:induction false} PeakSumInsert(peakMem: map<string, int>, ids: set<string>, id: string)
    requires id !in ids
    ensures PeakSum(peakMem, ids + {id}) == PeakSum(peakMem, ids) + PeakOf(peakMem, id)
    decreases |ids|
  {
    var all := ids + {id};
    var x :| x in all && PeakSum(peakMem, all) == PeakOf(peakMem, x) + PeakSum(peakMem, all - {x});
    if x == id {
      assert all - {x} == ids;
    } else {
      PeakSumInsert(peakMem, ids - {x}, id);
      assert all - {x} == ids - {x} + {id};
      PeakSumInsert(peakMem, ids - {x}, x);
      assert ids - {x} + {x} == ids;
    }
  }

  lemma {:induction false} PeakSumGrows(peakMem: map<string, int>, ids: set<string>, all: set<string>)
    requires ids <= all && forall id <- peakMem :: peakMem[id] > 0
    ensures PeakSum(peakMem, ids) <= PeakSum(peakMem, all)
    decreases |all - ids|
  {
    if ids != all {
      var id :| id in all && id !in ids;
      PeakSumInsert(peakMem, ids, id);
      PeakSumGrows(peakMem, ids + {id}, all);
    }
  }

  lemma {:induction false} PeakSumOnlyKeys(peakMem: map<string, int>, ids: set<string>)
    ensures PeakSum(peakMem, ids) == PeakSum(peakMem, ids * peakMem.Keys)
    decreases |ids|
  {
    if !(ids <= peakMem.Keys) {
      var id :| id in ids && id !in peakMem;
      PeakSumInsert(peakMem, ids - {id}, id);
      assert ids - {id} + {id} == ids;
      PeakSumOnlyKeys(peakMem, ids - {id});
      assert (ids - {id}) * peakMem.Keys == ids * peakMem.Keys;
    } else {
      assert ids * peakMem.Keys == ids;
    }
  }

  function IDs(sample: Sample): set<string> {
    set e | e in sample :: ContainerID(e)
  }

  predicate DistinctIDs(sample: Sample) {
    forall i, j :: 0 <= i < j < |sample| ==> ContainerID(sample[i]) != ContainerID(sample[j])
  }

  lemma {:induction false} SampleBelowPeaks(sample: Sample, peakMem: map<string, int>)
    requires DistinctIDs(sample)
    requires forall e <- sample :: Memory(e) <= PeakOf(peakMem, ContainerID(e))
    ensures Exact(sample).mem <= PeakSum(peakMem, IDs(sample))
  {
    hide ContainerID, Memory, CPU, PIDs, Pair;
    if sample != [] {
      var n := |sample| - 1;
      var front, e := sample[..n], sample[n];
      SampleBelowPeaks(front, peakMem);
      assert sample == front + [e];
      assert IDs(sample) == IDs(front) + {ContainerID(e)};
      assert ContainerID(e) !in IDs(front);
      PeakSumInsert(peakMem, IDs(front), ContainerID(e));
    }
  }

  lemma {:induction false} EntryBelowSample(sample: Sample, e: Entry)
    requires e in sample && forall d <- sample :: Memory(d) >= 0
    ensures Memory(e) <= Exact(sample).mem
  {
    hide Memory, CPU, PIDs, Pair;
    var front, last := sample[..|sample| - 1], sample[|sample| - 1];
    assert sample == front + [last];
    if e != last {
      EntryBelowSample(front, e);
    } else {
      ExactNonNegative(front);
    }
  }

  lemma {:induction false} ExactNonNegative(sample: Sample)
    requires forall d <- sample :: Memory(d) >= 0
    ensures Exact(sample).mem >= 0
  {
    hide Memory, CPU, PIDs, Pair;
    if sample != [] {
      ExactNonNegative(sample[..|sample| - 1]);
    }
  }

  lemma MemoryIsExact(s: Sample)
    requires IsInt64(Exact(s).mem)
    ensures Sum(s).mem == Exact(s).mem
  {
    SumIsExact(s);
    WrapId(Exact(s).mem);
  }

  /** With non-negative sizes whose sums fit in 64 bits, no container's peak exceeds the peak of the total. */
  lemma ContainerBelowTotal(history: seq<Sample>, inspect: Inspect, id: string)
    requires forall s <- history :: IsInt64(Exact(s).mem) && forall e <- s :: Memory(e) >= 0
    ensures PeakOf(Folded(history, inspect).peakMem, id) <= Folded(history, inspect).totals.mem
  {
    hide Folded, IsInt64, Memory, ContainerID, Exact, Sum;
    ContainersArePeaks(history, inspect, id);
    TotalsArePeaks(history, inspect, TotalMem);
    var peak := PeakOf(Folded(history, inspect).peakMem, id);
    if peak as real in MemorySeen(history, id) {
      var s, e :| s in history && e in s && ContainerID(e) == id && Memory(e) as real == peak as real;
      EntryBelowSample(s, e);
      MemoryIsExact(s);
      assert Get(Sum(s), TotalMem) in TotalsSeen(history, TotalMem);
    }
  }

  /** If also no sample names a container twice, the peak of the total is at most the sum of the peaks. */
  lemma TotalBelowContainers(history: seq<Sample>, inspect: Inspect)
    requires forall s <- history :: IsInt64(Exact(s).mem) && DistinctIDs(s)
    ensures var p := Folded(history, inspect); p.totals.mem <= PeakSum(p.peakMem, p.peakMem.Keys)
  {
    hide Folded, IsInt64, Memory, ContainerID, Exact, Sum;
    var p := Folded(history, inspect);
    TotalsArePeaks(history, inspect, TotalMem);
    FoldedPositive(history, inspect);
    PeakSumGrows(p.peakMem, {}, p.peakMem.Keys);
    if Get(p.totals, TotalMem) in TotalsSeen(history, TotalMem) {
      var s :| s in history && Get(Sum(s), TotalMem) == Get(p.totals, TotalMem);
      MemoryIsExact(s);
      forall e | e in s
        ensures Memory(e) <= PeakOf(p.peakMem, ContainerID(e))
      {
        ContainersArePeaks(history, inspect, ContainerID(e));
        assert Memory(e) as real in MemorySeen(history, ContainerID(e));
      }
      SampleBelowPeaks(s, p.peakMem);
      PeakSumOnlyKeys(p.peakMem, IDs(s));
      PeakSumGrows(p.peakMem, IDs(s) * p.peakMem.Keys, p.peakMem.Keys);
    }
  }

  /** Without distinct identifiers the bound fails: a container listed twice counts twice in the total. */
  lemma TwiceListedExceedsPeaks(e: Entry, inspect: Inspect)
    requires 0 < Memory(e) < 0x4000_0000_0000_0000
    ensures var p := Folded([[e, e]], inspect);
            p.totals.mem == 2 * Memory(e) && PeakSum(p.peakMem, p.peakMem.Keys) == Memory(e)
  {
    hide Memory, ContainerID, CPU, PIDs, Pair, Sighted, Wrap;
    WrapId(0);
    WrapId(Memory(e));
    WrapId(2 * Memory(e));
    var two, one := [e, e], [e];
    assert two[..1] == one && one[..0] == [];
    assert Sum(one).mem == Memory(e) && Sum(two).mem == 2 * Memory(e);
    var raised := map[ContainerID(e) := Memory(e)];
    assert Raised(map[], one) == raised;
    assert Raised(map[], two) == raised;
    var history: seq<Sample> := [two];
    assert history[..0] == [];
    PeakSumInsert(raised, {}, ContainerID(e));
    assert raised.Keys == {} + {ContainerID(e)};
  }
}
