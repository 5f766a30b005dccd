/** Resource accounting: samples of container statistics folded into running peaks. */
module Metrics {
  import opened Wrappers
  import opened Strings
  import opened Units
  import opened ImageNames

  /** One line of container statistics, as text. */
  datatype Entry = Entry(
    id: string, name: string, cpuPercent: string, memUsage: string, netIO: string, blockIO: string, pids: string)

  type Sample = seq<Entry>

  datatype Info = Info(id: string, name: string, image: string, shortName: string, service: string)

  /** The quantities summed over a sample, and their peaks over a run. */
  datatype Totals = Totals(mem: int, cpu: real, pids: int, netRx: int, netTx: int, blockRead: int, blockWrite: int)

  datatype Peaks = Peaks(containers: map<string, Info>, peakMem: map<string, int>, totals: Totals)

  const ZERO := Totals(0, 0.0, 0, 0, 0, 0, 0)
  const NOTHING := Peaks(map[], map[], ZERO)

  /** What `inspect` answers for a container: its image and its service label, both possibly empty. */
  type Inspect = string -> (string, string)

  // ----- 64-bit sums

  function Wrap(x: int): int {
    (x + 0x8000_0000_0000_0000) % 0x1_0000_0000_0000_0000 - 0x8000_0000_0000_0000
  }

  lemma WrapId(x: int)
    requires IsInt64(x)
    ensures Wrap(x) == x
  {
  }

  lemma WrapAdd(a: int, b: int)
    ensures Wrap(Wrap(a) + b) == Wrap(a + b)
  {
    var m := 0x1_0000_0000_0000_0000;
    var k := (a + 0x8000_0000_0000_0000) / m;
    assert Wrap(a) == a - k * m;
    var n := (a + b + 0x8000_0000_0000_0000) / m;
    assert Wrap(a) + b + 0x8000_0000_0000_0000 == (a + b + 0x8000_0000_0000_0000) - k * m;
    ModShift(a + b + 0x8000_0000_0000_0000, k);
  }

  lemma ModShift(x: int, k: int)
    ensures (x - k * 0x1_0000_0000_0000_0000) % 0x1_0000_0000_0000_0000 == x % 0x1_0000_0000_0000_0000
  {
  }

  function Plus(a: Totals, b: Totals): Totals {
    Totals(Wrap(a.mem + b.mem), a.cpu + b.cpu, Wrap(a.pids + b.pids), Wrap(a.netRx + b.netRx),
           Wrap(a.netTx + b.netTx), Wrap(a.blockRead + b.blockRead), Wrap(a.blockWrite + b.blockWrite))
  }

  function Max(a: int, b: int): int {
    if b > a then b else a
  }

  function Higher(a: Totals, b: Totals): Totals {
    Totals(Max(a.mem, b.mem), if b.cpu > a.cpu then b.cpu else a.cpu, Max(a.pids, b.pids), Max(a.netRx, b.netRx),
           Max(a.netTx, b.netTx), Max(a.blockRead, b.blockRead), Max(a.blockWrite, b.blockWrite))
  }

  // ----- reading one entry

  function ContainerID(e: Entry): string {
    if TrimSpace(e.id) == "" then e.name else TrimSpace(e.id)
  }

  function Memory(e: Entry): int {
    ParseHumanBytes(Split(e.memUsage, " / ")[0])
  }

  function CPU(e: Entry): real {
    match ParseDecimal(TrimSuffix(TrimSpace(e.cpuPercent), "%"))
    case None => 0.0
    case Some(d) =>
      PowPositive(10, d.scale);
      d.mantissa as real / Pow(10, d.scale) as real
  }

  /** Base-ten integers in the 64-bit range. */
  function ParseInt(s: string): Option<int> {
    match ParseDecimal(s)
    case Some(d) => if '.' !in s && IsInt64(d.mantissa) then Some(d.mantissa) else None
    case None => None
  }

  function PIDs(e: Entry): int {
    match ParseInt(TrimSpace(e.pids)) case Some(n) => n case None => 0
  }

  /** Two byte counts separated by a slash; anything else counts as nothing. */
  function Pair(s: string): (int, int) {
    var parts := Split(s, " / ");
    if |parts| == 2 then (ParseHumanBytes(parts[0]), ParseHumanBytes(parts[1])) else (0, 0)
  }

  function Reading(e: Entry): Totals {
    Totals(Memory(e), CPU(e), PIDs(e), Pair(e.netIO).0, Pair(e.netIO).1, Pair(e.blockIO).0, Pair(e.blockIO).1)
  }

  /** What a container's metadata is when `e` is its first sighting. */
  function Sighted(e: Entry, inspect: Inspect): Info {
    var cid := ContainerID(e);
    var (image, service) := inspect(cid);
    var short := ExtractImageShortName(image);
    Info(cid, e.name, image,
         if short == "container" || short == "" then ExtractImageShortName(e.name) else short, service)
  }

  // ----- folding a sample

  function Sum(sample: Sample): Totals {
    if sample == [] then ZERO else Plus(Sum(sample[..|sample| - 1]), Reading(sample[|sample| - 1]))
  }

  function Known(containers: map<string, Info>, sample: Sample, inspect: Inspect): map<string, Info> {
    if sample == [] then containers
    else
      var e := sample[|sample| - 1];
      var before := Known(containers, sample[..|sample| - 1], inspect);
      if ContainerID(e) in before then before else before[ContainerID(e) := Sighted(e, inspect)]
  }

  function PeakOf(peakMem: map<string, int>, id: string): int {
    if id in peakMem then peakMem[id] else 0
  }

  function Raised(peakMem: map<string, int>, sample: Sample): map<string, int> {
    if sample == [] then peakMem
    else
      var e := sample[|sample| - 1];
      var before := Raised(peakMem, sample[..|sample| - 1]);
      if Memory(e) > PeakOf(before, ContainerID(e)) then before[ContainerID(e) := Memory(e)] else before
  }

  function Updated(p: Peaks, sample: Sample, inspect: Inspect): Peaks {
    Peaks(Known(p.containers, sample, inspect), Raised(p.peakMem, sample), Higher(p.totals, Sum(sample)))
  }

  /** All samples of a run, in order. */
  function Folded(history: seq<Sample>, inspect: Inspect): Peaks {
    if history == [] then NOTHING
    else Updated(Folded(history[..|history| - 1], inspect), history[|history| - 1], inspect)
  }

  class ContainerMetrics {
    var containers: map<string, Info>
    var peakContainerMem: map<string, int>
    var peakTotalMemBytes: int
    var peakTotalCPU: real
    var latestNetRxBytes: int
    var latestNetTxBytes: int
    var latestBlockRead: int
    var latestBlockWrite: int
    var peakConcurrentPIDs: int

    constructor ()
      ensures View() == NOTHING
    {
      containers, peakContainerMem := map[], map[];
      peakTotalMemBytes, peakTotalCPU, peakConcurrentPIDs := 0, 0.0, 0;
      latestNetRxBytes, latestNetTxBytes, latestBlockRead, latestBlockWrite := 0, 0, 0, 0;
    }

    function View(): Peaks
      reads this
    {
      Peaks(containers, peakContainerMem,
            Totals(peakTotalMemBytes, peakTotalCPU, peakConcurrentPIDs, latestNetRxBytes, latestNetTxBytes,
                   latestBlockRead, latestBlockWrite))
    }

    /** Folds one sample into the peaks. */
    method Update(entries: Sample, inspect: Inspect)
      modifies this
      ensures View() == Updated(old(View()), entries, inspect)
    {
      var sum := Tally(entries, inspect);
      Raise(sum);
    }

    /** Raises the peaks that a sample's totals exceed. */
    method Raise(sum: Totals)
      modifies this
      ensures View() == old(View()).(totals := Higher(old(View()).totals, sum))
    {
      RaiseLoad(sum);
      RaiseTraffic(sum);
    }

    method RaiseLoad(sum: Totals)
      modifies this`peakTotalMemBytes, this`peakTotalCPU, this`peakConcurrentPIDs
      ensures peakTotalMemBytes == Max(old(peakTotalMemBytes), sum.mem)
      ensures peakTotalCPU == if sum.cpu > old(peakTotalCPU) then sum.cpu else old(peakTotalCPU)
      ensures peakConcurrentPIDs == Max(old(peakConcurrentPIDs), sum.pids)
    {
      if sum.mem > peakTotalMemBytes {
        peakTotalMemBytes := sum.mem;
      }
      if sum.cpu > peakTotalCPU {
        peakTotalCPU := sum.cpu;
      }
      if sum.pids > peakConcurrentPIDs {
        peakConcurrentPIDs := sum.pids;
      }
    }

    method RaiseTraffic(sum: Totals)
      modifies this`latestNetRxBytes, this`latestNetTxBytes, this`latestBlockRead, this`latestBlockWrite
      ensures latestNetRxBytes == Max(old(latestNetRxBytes), sum.netRx)
      ensures latestNetTxBytes == Max(old(latestNetTxBytes), sum.netTx)
      ensures latestBlockRead == Max(old(latestBlockRead), sum.blockRead)
      ensures latestBlockWrite == Max(old(latestBlockWrite), sum.blockWrite)
    {
      if sum.netRx > latestNetRxBytes {
        latestNetRxBytes := sum.netRx;
      }
      if sum.netTx > latestNetTxBytes {
        latestNetTxBytes := sum.netTx;
      }
      if sum.blockRead > latestBlockRead {
        latestBlockRead := sum.blockRead;
      }
      if sum.blockWrite > latestBlockWrite {
        latestBlockWrite := sum.blockWrite;
      }
    }

    /** The loop over the entries: sums the sample, resolves new containers and raises their own peaks. */
    method Tally(entries: Sample, inspect: Inspect) returns (sum: Totals)
      modifies this`containers, this`peakContainerMem
      ensures sum == Sum(entries)
      ensures containers == Known(old(containers), entries, inspect)
      ensures peakContainerMem == Raised(old(peakContainerMem), entries)
    {
      hide Memory, Pair, CPU, PIDs, ContainerID, Sighted, Wrap;
      sum := ZERO;
      for i := 0 to |entries|
        invariant containers == Known(old(containers), entries[..i], inspect)
        invariant peakContainerMem == Raised(old(peakContainerMem), entries[..i])
        invariant sum == Sum(entries[..i])
      {
        var e := entries[i];
        assert entries[..i + 1][..i] == entries[..i];
        var cid := ContainerID(e);
        if cid !in containers {
          containers := containers[cid := Sighted(e, inspect)];
        }
        var mem := Memory(e);
        if mem > PeakOf(peakContainerMem, cid) {
          peakContainerMem := peakContainerMem[cid := mem];
        }
        sum := Plus(sum, Reading(e));
      }
      assert entries[..|entries|] == entries;
    }
  }
}
