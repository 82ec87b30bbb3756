/** Reconstructing PXD cluster parameters from digits
    (rootable/detectors/clustersFromDigits.py): per event, per sensor in
    `panelIDs` order, the sensor's digits are grouped into clusters by
    `genCluster` and one row of statistics is appended per cluster. */
module ClustersFromDigits {
  import opened Common
  import opened Panels

  /** One member of a cluster as `genCluster` hands it out: `[u, v, charge]`. */
  datatype Pixel = Pixel(u: int, v: int, charge: int)

  /** `cluster[:, 0]`, `cluster[:, 1]` and `cluster[:, 2]`. */
  function Us(c: seq<Pixel>): (r: seq<int>)
    ensures |r| == |c|
  {
    if c == [] then [] else Us(c[..|c| - 1]) + [c[|c| - 1].u]
  }

  function Vs(c: seq<Pixel>): (r: seq<int>)
    ensures |r| == |c|
  {
    if c == [] then [] else Vs(c[..|c| - 1]) + [c[|c| - 1].v]
  }

  function Charges(c: seq<Pixel>): (r: seq<int>)
    ensures |r| == |c|
  {
    if c == [] then [] else Charges(c[..|c| - 1]) + [c[|c| - 1].charge]
  }

  /** Entry `k` of each column is the field of member `k`. */
  lemma {:induction false} ColumnsSpec(c: seq<Pixel>)
    ensures forall k :: 0 <= k < |c| ==> Us(c)[k] == c[k].u && Vs(c)[k] == c[k].v && Charges(c)[k] == c[k].charge
  {
    if c != [] {
      ColumnsSpec(c[..|c| - 1]);
    }
  }

  /** One digit of an event: the four `getDigits` arrays read at the same index. */
  datatype Digit = Digit(u: int, v: int, charge: int, sensor: int)

  /** `cells[sensors == s]` for all three cell arrays at once: the digits on
      sensor `s`, in order. */
  function OnSensor(ds: seq<Digit>, s: int): (r: seq<Digit>)
    ensures |r| <= |ds|
  {
    if ds == [] then []
    else OnSensor(ds[..|ds| - 1], s) + (if ds[|ds| - 1].sensor == s then [ds[|ds| - 1]] else [])
  }

  /** The selection keeps exactly the digits on sensor `s`. */
  lemma {:induction false} OnSensorSpec(ds: seq<Digit>, s: int)
    ensures forall k :: 0 <= k < |OnSensor(ds, s)| ==> OnSensor(ds, s)[k].sensor == s && OnSensor(ds, s)[k] in ds
    ensures forall d :: d in ds && d.sensor == s ==> d in OnSensor(ds, s)
    ensures OnSensor(ds, s) == [] <==> forall d :: d in ds ==> d.sensor != s
  {
    if ds != [] {
      var init := ds[..|ds| - 1];
      OnSensorSpec(init, s);
      assert ds == init + [ds[|ds| - 1]];
    }
  }

  /** The digits without their sensor, as the three cell arrays hand them
      to `genCluster`. */
  function PixelsOf(ds: seq<Digit>): seq<Pixel>
  {
    seq(|ds|, k requires 0 <= k < |ds| => Pixel(ds[k].u, ds[k].v, ds[k].charge))
  }

  /** One output row: the statistics of one cluster. `P` stands for the
      floating-point u/v positions, which are only copied here. */
  datatype Row<P> = Row(
    eventNumber: int, clsCharge: int, seedCharge: int,
    clsSize: int, uSize: int, vSize: int,
    uPosition: P, vPosition: P, sensorID: int,
    uCells: seq<int>, vCells: seq<int>, cellCharges: seq<int>)

  /** The row for one cluster of event `event` on sensor `sensor`; `toUV`
      is `_pixelToUV` (a polynomial calibration, left abstract). */
  function ClusterRow<P>(toUV: (int, int, int) -> (P, P), event: int, sensor: int, cluster: seq<Pixel>): Row<P>
    requires |cluster| > 0
  {
    var charges := Charges(cluster);
    var seed := ArgMax(charges);
    var position := toUV(cluster[seed].u, cluster[seed].v, sensor);
    Row(event, Sum(charges), charges[seed],
        |cluster|, |Distinct(Us(cluster))|, |Distinct(Vs(cluster))|,
        position.0, position.1, sensor,
        Us(cluster), Vs(cluster), charges)
  }

  /** What every row promises about itself: one cell per member, the
      cluster charge is the sum of the cell charges, the u/v sizes count
      the distinct cells and lie between 1 and the cluster size, the seed
      charge is the largest cell charge, and the position is that of the
      first cell holding it. */
  ghost predicate RowStats<P>(toUV: (int, int, int) -> (P, P), r: Row<P>)
  {
    |r.uCells| == |r.vCells| == |r.cellCharges| == r.clsSize > 0 &&
    r.clsCharge == Sum(r.cellCharges) &&
    r.uSize == |Distinct(r.uCells)| && r.vSize == |Distinct(r.vCells)| &&
    1 <= r.uSize <= r.clsSize && 1 <= r.vSize <= r.clsSize &&
    (forall m :: 0 <= m < |r.cellCharges| ==> r.cellCharges[m] <= r.seedCharge) &&
    exists m :: (0 <= m < |r.cellCharges| && r.cellCharges[m] == r.seedCharge &&
      (forall j :: 0 <= j < m ==> r.cellCharges[j] < r.seedCharge) &&
      (r.uPosition, r.vPosition) == toUV(r.uCells[m], r.vCells[m], r.sensorID))
  }

  /** The row of a cluster carries its event, its sensor and its members'
      columns, and keeps the row statistics. */
  lemma ClusterRowSpec<P>(toUV: (int, int, int) -> (P, P), event: int, sensor: int, cluster: seq<Pixel>)
    requires |cluster| > 0
    ensures
      var r := ClusterRow(toUV, event, sensor, cluster);
      r.eventNumber == event && r.sensorID == sensor &&
      r.uCells == Us(cluster) && r.vCells == Vs(cluster) && r.cellCharges == Charges(cluster) &&
      r.clsSize == |cluster| && RowStats(toUV, r)
  {
    ColumnsSpec(cluster);
    DistinctAtMostLength(Us(cluster));
    DistinctAtMostLength(Vs(cluster));
    assert cluster[0].u in Distinct(Us(cluster));
    assert cluster[0].v in Distinct(Vs(cluster));
    var r := ClusterRow(toUV, event, sensor, cluster);
    var m := ArgMax(Charges(cluster));
    assert r.cellCharges[m] == r.seedCharge;
    assert (r.uPosition, r.vPosition) == toUV(r.uCells[m], r.vCells[m], r.sensorID);
  }

  /** One `genCluster` group together with the event and sensor it came from. */
  datatype Job = Job(event: int, sensor: int, cluster: seq<Pixel>)

  /** The groups of one `genCluster` call, tagged with their event and sensor. */
  function Tag(i: int, sensor: int, clusters: seq<seq<Pixel>>): (r: seq<Job>)
    ensures |r| == |clusters|
  {
    if clusters == [] then [] else Tag(i, sensor, clusters[..|clusters| - 1]) + [Job(i, sensor, clusters[|clusters| - 1])]
  }

  /** Tagged group `k` is group `k` of the call. */
  lemma {:induction false} TagSpec(i: int, sensor: int, clusters: seq<seq<Pixel>>)
    ensures forall k :: 0 <= k < |clusters| ==> Tag(i, sensor, clusters)[k] == Job(i, sensor, clusters[k])
  {
    if clusters != [] {
      TagSpec(i, sensor, clusters[..|clusters| - 1]);
    }
  }

  /** The clusters of one sensor in event `i`; a sensor without digits is
      skipped and `genCluster` is not called for it. */
  function SensorJobs(genCluster: (seq<int>, seq<int>, seq<int>) -> seq<seq<Pixel>>,
                      digits: seq<Digit>, i: int, sensor: int): (r: seq<Job>)
  {
    var mine := OnSensor(digits, sensor);
    if |mine| == 0 then []
    else
      var clusters := genCluster(Us(PixelsOf(mine)), Vs(PixelsOf(mine)), Charges(PixelsOf(mine)));
      Tag(i, sensor, clusters)
  }

  /** The groups `_process` makes for sensor `sensor` of event `i`: the
      sensor's groups for an event that exists, nothing otherwise. */
  function JobsOf(genCluster: (seq<int>, seq<int>, seq<int>) -> seq<seq<Pixel>>,
                  events: seq<seq<Digit>>): (int, int) -> seq<Job>
  {
    (i: int, sensor: int) => if 0 <= i < |events| then SensorJobs(genCluster, events[i], i, sensor) else []
  }

  /** The clusters of event `i`, sensor by sensor in the order of `sensors`;
      `jobsOf(i, s)` are the groups of sensor `s` in event `i`. */
  function EventJobs(jobsOf: (int, int) -> seq<Job>, i: int, sensors: seq<int>): seq<Job>
  {
    if sensors == [] then []
    else EventJobs(jobsOf, i, sensors[..|sensors| - 1]) + jobsOf(i, sensors[|sensors| - 1])
  }

  /** The clusters of the first `n` events, in processing order. */
  function AllJobs(jobsOf: (int, int) -> seq<Job>, panels: seq<int>, n: nat): seq<Job>
  {
    if n == 0 then [] else AllJobs(jobsOf, panels, n - 1) + EventJobs(jobsOf, n - 1, panels)
  }

  /** The column table `_process` returns, one sequence per key. */
  datatype Table<P> = Table(
    eventNumber: seq<int>, clsCharge: seq<int>, seedCharge: seq<int>,
    clsSize: seq<int>, uSize: seq<int>, vSize: seq<int>,
    uPosition: seq<P>, vPosition: seq<P>, sensorID: seq<int>,
    uCellIDs: seq<seq<int>>, vCellIDs: seq<seq<int>>, cellCharges: seq<seq<int>>)
  {
    /** Appending one row: one entry to every column. */
    function Add(r: Row<P>): Table<P>
    {
      Table(eventNumber + [r.eventNumber], clsCharge + [r.clsCharge], seedCharge + [r.seedCharge],
            clsSize + [r.clsSize], uSize + [r.uSize], vSize + [r.vSize],
            uPosition + [r.uPosition], vPosition + [r.vPosition], sensorID + [r.sensorID],
            uCellIDs + [r.uCells], vCellIDs + [r.vCells], cellCharges + [r.cellCharges])
    }
  }

  function EmptyTable<P>(): Table<P>
  {
    Table([], [], [], [], [], [], [], [], [], [], [], [])
  }

  /** The table holding `rows`, in order: the twelve lists `_process`
      appends to in lockstep. */
  function Tabulate<P>(rows: seq<Row<P>>): Table<P>
  {
    if rows == [] then EmptyTable() else Tabulate(rows[..|rows| - 1]).Add(rows[|rows| - 1])
  }

  /** The twelve columns have the same length. */
  predicate SameLengths<P>(t: Table<P>)
  {
    |t.eventNumber| == |t.clsCharge| == |t.seedCharge| == |t.clsSize| == |t.uSize| == |t.vSize| ==
    |t.uPosition| == |t.vPosition| == |t.sensorID| == |t.uCellIDs| == |t.vCellIDs| == |t.cellCharges|
  }

  /** Row `k` read back across the columns. */
  function RowAt<P>(t: Table<P>, k: int): Row<P>
    requires SameLengths(t) && 0 <= k < |t.eventNumber|
  {
    Row(t.eventNumber[k], t.clsCharge[k], t.seedCharge[k], t.clsSize[k], t.uSize[k], t.vSize[k],
        t.uPosition[k], t.vPosition[k], t.sensorID[k], t.uCellIDs[k], t.vCellIDs[k], t.cellCharges[k])
  }

  /** Every column holds one entry per row, and reading row `k` back across
      the columns gives row `k`. */
  lemma {:induction false} TabulateColumns<P>(rows: seq<Row<P>>)
    ensures SameLengths(Tabulate(rows)) && |Tabulate(rows).eventNumber| == |rows|
    ensures forall k :: 0 <= k < |rows| ==> RowAt(Tabulate(rows), k) == rows[k]
  {
    if rows != [] {
      var init := rows[..|rows| - 1];
      TabulateColumns(init);
      var t := Tabulate(init);
      forall k | 0 <= k < |rows| ensures RowAt(Tabulate(rows), k) == rows[k] {
        AddRowAt(t, rows[|rows| - 1], k);
      }
    }
  }

  /** Appending a row keeps the earlier rows and puts the new one last. */
  lemma AddRowAt<P>(t: Table<P>, r: Row<P>, k: int)
    requires SameLengths(t) && 0 <= k <= |t.eventNumber|
    ensures SameLengths(t.Add(r)) && |t.Add(r).eventNumber| == |t.eventNumber| + 1
    ensures RowAt(t.Add(r), k) == if k < |t.eventNumber| then RowAt(t, k) else r
  {
  }

  /** No `genCluster` group is empty (`np.array([])[:, 0]` raises IndexError). */
  predicate NoEmptyCluster(jobs: seq<Job>)
  {
    forall k :: 0 <= k < |jobs| ==> |jobs[k].cluster| > 0
  }

  /** `f` applied to each job in turn. */
  function MapJobs<R>(f: Job --> R, jobs: seq<Job>): (r: seq<R>)
    requires forall k :: 0 <= k < |jobs| ==> f.requires(jobs[k])
    ensures |r| == |jobs|
  {
    if jobs == [] then [] else MapJobs(f, jobs[..|jobs| - 1]) + [f(jobs[|jobs| - 1])]
  }

  lemma {:induction false} MapJobsSpec<R>(f: Job --> R, jobs: seq<Job>)
    requires forall k :: 0 <= k < |jobs| ==> f.requires(jobs[k])
    ensures forall k :: 0 <= k < |jobs| ==> MapJobs(f, jobs)[k] == f(jobs[k])
  {
    if jobs != [] {
      MapJobsSpec(f, jobs[..|jobs| - 1]);
    }
  }

  lemma MapJobsStep<R>(f: Job --> R, done: seq<Job>, job: Job)
    requires forall k :: 0 <= k < |done| ==> f.requires(done[k])
    requires f.requires(job)
    ensures MapJobs(f, done + [job]) == MapJobs(f, done) + [f(job)]
  {
    assert (done + [job])[..|done|] == done;
  }

  /** The row of a non-empty group. */
  function JobRow<P>(toUV: (int, int, int) -> (P, P)): Job --> Row<P>
  {
    (job: Job) requires |job.cluster| > 0 => ClusterRow(toUV, job.event, job.sensor, job.cluster)
  }

  /** The rows of a list of non-empty clusters, in order. */
  function RowsOf<P>(toUV: (int, int, int) -> (P, P), jobs: seq<Job>): (r: seq<Row<P>>)
    requires NoEmptyCluster(jobs)
    ensures |r| == |jobs|
  {
    MapJobs(JobRow(toUV), jobs)
  }

  /** Row `k` is the row of cluster `k`. */
  lemma RowsOfSpec<P>(toUV: (int, int, int) -> (P, P), jobs: seq<Job>)
    requires NoEmptyCluster(jobs)
    ensures forall k :: 0 <= k < |jobs| ==>
      RowsOf(toUV, jobs)[k] == ClusterRow(toUV, jobs[k].event, jobs[k].sensor, jobs[k].cluster)
  {
    MapJobsSpec(JobRow(toUV), jobs);
  }

  /** What `_process` returns when it walks the sensors `panels`: the table
      of all clusters' rows, or IndexError when `genCluster` yields an empty
      group. */
  function ProcessSpec<P>(genCluster: (seq<int>, seq<int>, seq<int>) -> seq<seq<Pixel>>, toUV: (int, int, int) -> (P, P),
                          events: seq<seq<Digit>>, panels: seq<int>): Result<Table<P>>
  {
    var jobs := AllJobs(JobsOf(genCluster, events), panels, |events|);
    if NoEmptyCluster(jobs) then Ok(Tabulate(RowsOf(toUV, jobs))) else Err(IndexError)
  }

  /** The clusters of the first `k` sensors come first among an event's. */
  lemma {:induction false} EventJobsPrefix(jobsOf: (int, int) -> seq<Job>, i: int, sensors: seq<int>, k: nat)
    requires k <= |sensors|
    ensures
      var a := EventJobs(jobsOf, i, sensors[..k]);
      var b := EventJobs(jobsOf, i, sensors);
      |a| <= |b| && forall p :: 0 <= p < |a| ==> a[p] == b[p]
    decreases |sensors|
  {
    if k < |sensors| {
      var init := sensors[..|sensors| - 1];
      EventJobsPrefix(jobsOf, i, init, k);
      assert init[..k] == sensors[..k];
    } else {
      assert sensors[..k] == sensors;
    }
  }

  /** The clusters of events `i .. n - 1`. */
  function LaterJobs(jobsOf: (int, int) -> seq<Job>, panels: seq<int>, i: nat, n: nat): seq<Job>
    requires i <= n
    decreases n
  {
    if n == i then [] else LaterJobs(jobsOf, panels, i, n - 1) + EventJobs(jobsOf, n - 1, panels)
  }

  /** The clusters of the first `i` events come first among all. */
  lemma {:induction false} AllJobsSplit(jobsOf: (int, int) -> seq<Job>, panels: seq<int>, i: nat, n: nat)
    requires i <= n
    ensures AllJobs(jobsOf, panels, n) == AllJobs(jobsOf, panels, i) + LaterJobs(jobsOf, panels, i, n)
    decreases n
  {
    if i < n {
      AllJobsSplit(jobsOf, panels, i, n - 1);
      var a := AllJobs(jobsOf, panels, i);
      var l := LaterJobs(jobsOf, panels, i, n - 1);
      var e := EventJobs(jobsOf, n - 1, panels);
      assert (a + l) + e == a + (l + e);
    } else {
      assert AllJobs(jobsOf, panels, i) + [] == AllJobs(jobsOf, panels, i);
    }
  }

  /** Group `j` of sensor `sensors[k]` sits at position `|front| + j` among
      the event's groups, where `front` are the groups of the sensors before. */
  lemma SensorJobsInEvent(jobsOf: (int, int) -> seq<Job>, i: int, sensors: seq<int>, k: nat, j: nat)
    requires k < |sensors| && j < |jobsOf(i, sensors[k])|
    ensures
      var p := |EventJobs(jobsOf, i, sensors[..k])| + j;
      p < |EventJobs(jobsOf, i, sensors)| && EventJobs(jobsOf, i, sensors)[p] == jobsOf(i, sensors[k])[j]
  {
    assert sensors[..k + 1][..k] == sensors[..k];
    EventJobsPrefix(jobsOf, i, sensors, k + 1);
  }

  /** Group `q` of event `i` sits at position `|AllJobs(i)| + q` among the
      groups of the first `n` events. */
  lemma EventJobsInAll(jobsOf: (int, int) -> seq<Job>, panels: seq<int>, i: nat, n: nat, q: nat)
    requires i < n && q < |EventJobs(jobsOf, i, panels)|
    ensures
      var p := |AllJobs(jobsOf, panels, i)| + q;
      p < |AllJobs(jobsOf, panels, n)| && AllJobs(jobsOf, panels, n)[p] == EventJobs(jobsOf, i, panels)[q]
  {
    AllJobsSplit(jobsOf, panels, i + 1, n);
  }

  /** An empty group met in event `i` at sensor `panels[k]` is among all
      the groups, so the whole call raises. */
  lemma EmptyGroupRaises(jobsOf: (int, int) -> seq<Job>, panels: seq<int>, n: nat, i: nat, k: nat)
    requires i < n && k < |panels|
    requires !NoEmptyCluster(jobsOf(i, panels[k]))
    ensures !NoEmptyCluster(AllJobs(jobsOf, panels, n))
  {
    EmptyGroupInEvent(jobsOf, i, panels, k);
    EmptyEventRaises(jobsOf, panels, n, i);
  }

  /** The sensors' loop step: one more sensor adds its groups at the end. */
  lemma EventJobsStep(jobsOf: (int, int) -> seq<Job>, i: int, sensors: seq<int>, k: nat)
    requires k < |sensors|
    ensures EventJobs(jobsOf, i, sensors[..k + 1]) == EventJobs(jobsOf, i, sensors[..k]) + jobsOf(i, sensors[k])
  {
    assert sensors[..k + 1][..k] == sensors[..k];
  }

  lemma NoEmptyClusterAppend(a: seq<Job>, b: seq<Job>)
    ensures NoEmptyCluster(a + b) <==> NoEmptyCluster(a) && NoEmptyCluster(b)
  {
    if NoEmptyCluster(a) && NoEmptyCluster(b) {
      forall k | 0 <= k < |a + b| ensures |(a + b)[k].cluster| > 0 {
        if k >= |a| { assert (a + b)[k] == b[k - |a|]; }
      }
    }
    if NoEmptyCluster(a + b) {
      forall k | 0 <= k < |a| ensures |a[k].cluster| > 0 {
        assert (a + b)[k] == a[k];
      }
      forall k | 0 <= k < |b| ensures |b[k].cluster| > 0 {
        assert (a + b)[|a| + k] == b[k];
      }
    }
  }

  lemma AppendEmpty<T>(a: seq<T>, s: seq<T>)
    ensures a + s[..0] == a
  {
    assert s[..0] == [];
  }

  lemma AppendOneMore<T>(a: seq<T>, s: seq<T>, j: nat)
    requires j < |s|
    ensures (a + s[..j]) + [s[j]] == a + s[..j + 1]
  {
    assert s[..j + 1] == s[..j] + [s[j]];
  }

  /** The clusters' loop step: one more non-empty group adds its row at the end. */
  lemma RowsStep<P>(toUV: (int, int, int) -> (P, P), done: seq<Job>, job: Job)
    requires NoEmptyCluster(done) && |job.cluster| > 0
    ensures NoEmptyCluster(done + [job])
    ensures RowsOf(toUV, done + [job]) == RowsOf(toUV, done) + [ClusterRow(toUV, job.event, job.sensor, job.cluster)]
  {
    assert NoEmptyCluster([job]);
    NoEmptyClusterAppend(done, [job]);
    var f := JobRow(toUV);
    assert forall k :: 0 <= k < |done| ==> f.requires(done[k]);
    MapJobsStep(f, done, job);
    assert f(job) == ClusterRow(toUV, job.event, job.sensor, job.cluster);
  }

  /** Event `digits` has a digit on sensor `s`. */
  ghost predicate HasDigit(digits: seq<Digit>, s: int)
  {
    exists d :: d in digits && d.sensor == s
  }

  /** The groups of one sensor carry its event and sensor, and a sensor
      yields groups only when it has a digit. */
  lemma SensorJobsFacts(genCluster: (seq<int>, seq<int>, seq<int>) -> seq<seq<Pixel>>,
                        digits: seq<Digit>, i: int, sensor: int)
    ensures forall p :: 0 <= p < |SensorJobs(genCluster, digits, i, sensor)| ==>
      SensorJobs(genCluster, digits, i, sensor)[p].event == i && SensorJobs(genCluster, digits, i, sensor)[p].sensor == sensor
    ensures |SensorJobs(genCluster, digits, i, sensor)| > 0 ==> HasDigit(digits, sensor)
  {
    var mine := OnSensor(digits, sensor);
    OnSensorSpec(digits, sensor);
    if |mine| > 0 {
      TagSpec(i, sensor, genCluster(Us(PixelsOf(mine)), Vs(PixelsOf(mine)), Charges(PixelsOf(mine))));
      assert mine[0] in digits && mine[0].sensor == sensor;
    }
  }

  /** `jobsOf(i, s)` holds groups of event `i` and sensor `s` only, and only
      when event `i` exists and has a digit on `s`. */
  ghost predicate WellTagged(jobsOf: (int, int) -> seq<Job>, events: seq<seq<Digit>>)
  {
    forall i, s ::
      (forall p :: 0 <= p < |jobsOf(i, s)| ==> jobsOf(i, s)[p].event == i && jobsOf(i, s)[p].sensor == s) &&
      (|jobsOf(i, s)| > 0 ==> 0 <= i < |events| && HasDigit(events[i], s))
  }

  lemma WellTaggedAt(jobsOf: (int, int) -> seq<Job>, events: seq<seq<Digit>>, i: int, s: int)
    requires WellTagged(jobsOf, events)
    ensures forall p :: 0 <= p < |jobsOf(i, s)| ==> jobsOf(i, s)[p].event == i && jobsOf(i, s)[p].sensor == s
    ensures |jobsOf(i, s)| > 0 ==> 0 <= i < |events| && HasDigit(events[i], s)
  {
  }

  lemma JobsOfWellTagged(genCluster: (seq<int>, seq<int>, seq<int>) -> seq<seq<Pixel>>, events: seq<seq<Digit>>)
    ensures WellTagged(JobsOf(genCluster, events), events)
  {
    forall i, s
      ensures var js := JobsOf(genCluster, events)(i, s);
        (forall p :: 0 <= p < |js| ==> js[p].event == i && js[p].sensor == s) &&
        (|js| > 0 ==> 0 <= i < |events| && HasDigit(events[i], s))
    {
      if 0 <= i < |events| {
        SensorJobsFacts(genCluster, events[i], i, s);
      }
    }
  }

  /** Every group of event `i` belongs to event `i` and to one of `sensors`,
      and that sensor has a digit in the event. */
  lemma {:induction false} EventJobsFacts(jobsOf: (int, int) -> seq<Job>, events: seq<seq<Digit>>, i: int, sensors: seq<int>)
    requires WellTagged(jobsOf, events)
    ensures forall p :: 0 <= p < |EventJobs(jobsOf, i, sensors)| ==>
      EventJobs(jobsOf, i, sensors)[p].event == i && EventJobs(jobsOf, i, sensors)[p].sensor in sensors &&
      0 <= i < |events| && HasDigit(events[i], EventJobs(jobsOf, i, sensors)[p].sensor)
    decreases |sensors|
  {
    if sensors != [] {
      var init := sensors[..|sensors| - 1];
      var last := sensors[|sensors| - 1];
      EventJobsFacts(jobsOf, events, i, init);
      var a := EventJobs(jobsOf, i, init);
      var b := jobsOf(i, last);
      WellTaggedAt(jobsOf, events, i, last);
      var ab: seq<Job> := a + b;
      assert EventJobs(jobsOf, i, sensors) == ab;
      assert sensors == init + [last];
      forall p | 0 <= p < |ab|
        ensures ab[p].event == i && ab[p].sensor in sensors && 0 <= i < |events| && HasDigit(events[i], ab[p].sensor)
      {
        if p < |a| {
          assert ab[p] == a[p] && a[p].sensor in init;
        } else {
          assert ab[p] == b[p - |a|];
          assert b[p - |a|].event == i && b[p - |a|].sensor == last;
        }
      }
    } else {
      assert EventJobs(jobsOf, i, sensors) == [];
    }
  }

  /** Every group of the first `n` events names an event below `n` and one
      of `panels` with a digit in that event, and event numbers never
      decrease along the groups. */
  lemma {:induction false} AllJobsFacts(jobsOf: (int, int) -> seq<Job>, events: seq<seq<Digit>>, panels: seq<int>, n: nat)
    requires WellTagged(jobsOf, events)
    ensures forall p :: 0 <= p < |AllJobs(jobsOf, panels, n)| ==>
      0 <= AllJobs(jobsOf, panels, n)[p].event < n && AllJobs(jobsOf, panels, n)[p].event < |events| &&
      AllJobs(jobsOf, panels, n)[p].sensor in panels &&
      HasDigit(events[AllJobs(jobsOf, panels, n)[p].event], AllJobs(jobsOf, panels, n)[p].sensor)
    ensures forall p, q :: 0 <= p <= q < |AllJobs(jobsOf, panels, n)| ==>
      AllJobs(jobsOf, panels, n)[p].event <= AllJobs(jobsOf, panels, n)[q].event
  {
    if n > 0 {
      AllJobsFacts(jobsOf, events, panels, n - 1);
      EventJobsFacts(jobsOf, events, n - 1, panels);
      var a := AllJobs(jobsOf, panels, n - 1);
      var b := EventJobs(jobsOf, n - 1, panels);
      var ab: seq<Job> := a + b;
      assert AllJobs(jobsOf, panels, n) == a + b;
      forall p | 0 <= p < |ab|
        ensures 0 <= ab[p].event < n && ab[p].event < |events| && ab[p].sensor in panels &&
          HasDigit(events[ab[p].event], ab[p].sensor)
        ensures p < |a| ==> ab[p].event < n - 1
        ensures p >= |a| ==> ab[p].event == n - 1
      {
        if p < |a| {
          assert ab[p] == a[p];
        } else {
          assert ab[p] == b[p - |a|];
        }
      }
      forall p, q | 0 <= p <= q < |ab| ensures ab[p].event <= ab[q].event {
        if q < |a| {
          assert ab[p] == a[p] && ab[q] == a[q];
        }
      }
    }
  }

  /** Every row of a successful table keeps the row statistics, and there
      is one row per `genCluster` group. */
  lemma ProcessRowStats<P>(genCluster: (seq<int>, seq<int>, seq<int>) -> seq<seq<Pixel>>, toUV: (int, int, int) -> (P, P),
                           events: seq<seq<Digit>>, panels: seq<int>)
    requires ProcessSpec(genCluster, toUV, events, panels).Ok?
    ensures var t := ProcessSpec(genCluster, toUV, events, panels).value;
      SameLengths(t) && |t.eventNumber| == |AllJobs(JobsOf(genCluster, events), panels, |events|)|
    ensures var t := ProcessSpec(genCluster, toUV, events, panels).value;
      SameLengths(t) && forall k :: 0 <= k < |t.eventNumber| ==> RowStats(toUV, RowAt(t, k))
  {
    var jobs := AllJobs(JobsOf(genCluster, events), panels, |events|);
    var rows := RowsOf(toUV, jobs);
    TabulateColumns(rows);
    RowsOfSpec(toUV, jobs);
    forall k | 0 <= k < |jobs| ensures RowStats(toUV, rows[k]) {
      ClusterRowSpec(toUV, jobs[k].event, jobs[k].sensor, jobs[k].cluster);
    }
  }

  /** Every row of a successful table names an existing event and one of
      `panels` on which that event has a digit, and the event numbers never
      decrease down the table. */
  lemma ProcessRowOrigins<P>(genCluster: (seq<int>, seq<int>, seq<int>) -> seq<seq<Pixel>>, toUV: (int, int, int) -> (P, P),
                             events: seq<seq<Digit>>, panels: seq<int>)
    requires ProcessSpec(genCluster, toUV, events, panels).Ok?
    ensures var t := ProcessSpec(genCluster, toUV, events, panels).value;
      |t.sensorID| == |t.eventNumber| &&
      forall k :: 0 <= k < |t.eventNumber| ==>
        t.sensorID[k] in panels && 0 <= t.eventNumber[k] < |events| && HasDigit(events[t.eventNumber[k]], t.sensorID[k])
    ensures var t := ProcessSpec(genCluster, toUV, events, panels).value;
      forall k1, k2 :: 0 <= k1 <= k2 < |t.eventNumber| ==> t.eventNumber[k1] <= t.eventNumber[k2]
  {
    var jobsOf := JobsOf(genCluster, events);
    var jobs := AllJobs(jobsOf, panels, |events|);
    var rows := RowsOf(toUV, jobs);
    JobsOfWellTagged(genCluster, events);
    AllJobsFacts(jobsOf, events, panels, |events|);
    TabulateColumns(rows);
    RowsOfSpec(toUV, jobs);
    var t := Tabulate(rows);
    forall k | 0 <= k < |jobs| ensures t.eventNumber[k] == jobs[k].event && t.sensorID[k] == jobs[k].sensor {
      ClusterRowSpec(toUV, jobs[k].event, jobs[k].sensor, jobs[k].cluster);
      assert RowAt(t, k) == rows[k];
    }
  }

  /** The groups of event `i` are non-empty when those of each of its
      sensors are. */
  lemma {:induction false} EventJobsNonEmpty(jobsOf: (int, int) -> seq<Job>, i: int, sensors: seq<int>)
    requires forall k :: 0 <= k < |sensors| ==> NoEmptyCluster(jobsOf(i, sensors[k]))
    ensures NoEmptyCluster(EventJobs(jobsOf, i, sensors))
    decreases |sensors|
  {
    if sensors != [] {
      var init := sensors[..|sensors| - 1];
      var last := sensors[|sensors| - 1];
      assert forall k :: 0 <= k < |init| ==> init[k] == sensors[k];
      EventJobsNonEmpty(jobsOf, i, init);
      NoEmptyClusterAppend(EventJobs(jobsOf, i, init), jobsOf(i, last));
    }
  }

  /** The groups of the first `n` events are non-empty when those of each
      sensor of `panels` in each of them are. */
  lemma {:induction false} AllJobsNonEmpty(jobsOf: (int, int) -> seq<Job>, panels: seq<int>, n: nat)
    requires forall i, k :: 0 <= i < n && 0 <= k < |panels| ==> NoEmptyCluster(jobsOf(i, panels[k]))
    ensures NoEmptyCluster(AllJobs(jobsOf, panels, n))
  {
    if n > 0 {
      AllJobsNonEmpty(jobsOf, panels, n - 1);
      EventJobsNonEmpty(jobsOf, n - 1, panels);
      NoEmptyClusterAppend(AllJobs(jobsOf, panels, n - 1), EventJobs(jobsOf, n - 1, panels));
    }
  }

  /** Some group of the first `n` events is empty exactly when some sensor
      of `panels` in one of those events has an empty group. */
  lemma AllJobsEmptyIff(jobsOf: (int, int) -> seq<Job>, panels: seq<int>, n: nat)
    ensures !NoEmptyCluster(AllJobs(jobsOf, panels, n)) <==>
      exists i, k :: 0 <= i < n && 0 <= k < |panels| && !NoEmptyCluster(jobsOf(i, panels[k]))
  {
    if exists i, k :: 0 <= i < n && 0 <= k < |panels| && !NoEmptyCluster(jobsOf(i, panels[k])) {
      var i, k :| 0 <= i < n && 0 <= k < |panels| && !NoEmptyCluster(jobsOf(i, panels[k]));
      EmptyGroupRaises(jobsOf, panels, n, i, k);
    } else {
      AllJobsNonEmpty(jobsOf, panels, n);
    }
  }

  /** `_process` raises IndexError exactly when `genCluster` returns an
      empty group for some sensor of `panels` in some event. */
  lemma ProcessRaisesIff<P>(genCluster: (seq<int>, seq<int>, seq<int>) -> seq<seq<Pixel>>, toUV: (int, int, int) -> (P, P),
                            events: seq<seq<Digit>>, panels: seq<int>)
    ensures ProcessSpec(genCluster, toUV, events, panels).Err? <==>
      exists i, k :: 0 <= i < |events| && 0 <= k < |panels| && !NoEmptyCluster(SensorJobs(genCluster, events[i], i, panels[k]))
    ensures ProcessSpec(genCluster, toUV, events, panels).Err? ==> ProcessSpec(genCluster, toUV, events, panels).error == IndexError
  {
    var jobsOf := JobsOf(genCluster, events);
    AllJobsEmptyIff(jobsOf, panels, |events|);
    assert forall i, s :: 0 <= i < |events| ==> jobsOf(i, s) == SensorJobs(genCluster, events[i], i, s);
  }

  /** The body of `_process` for one sensor of event `i`: select the
      sensor's digits, skip the sensor when it has none, and otherwise append
      one row per `genCluster` group to `rows`, the rows of `done`. */
  method SensorRows<P>(genCluster: (seq<int>, seq<int>, seq<int>) -> seq<seq<Pixel>>, toUV: (int, int, int) -> (P, P),
                       digits: seq<Digit>, i: int, sensor: int, rows: seq<Row<P>>, ghost done: seq<Job>)
    returns (r: Result<seq<Row<P>>>)
    requires NoEmptyCluster(done) && rows == RowsOf(toUV, done)
    ensures
      var jobs := SensorJobs(genCluster, digits, i, sensor);
      if NoEmptyCluster(jobs)
      then NoEmptyCluster(done + jobs) && r == Ok(RowsOf(toUV, done + jobs))
      else r == Err(IndexError)
  {
    ghost var jobs := SensorJobs(genCluster, digits, i, sensor);
    var mine := OnSensor(digits, sensor);
    if |mine| == 0 {
      assert done + jobs == done;
      return Ok(rows);
    }
    var clusters := genCluster(Us(PixelsOf(mine)), Vs(PixelsOf(mine)), Charges(PixelsOf(mine)));
    assert jobs == Tag(i, sensor, clusters);
    TagSpec(i, sensor, clusters);
    var out := rows;
    AppendEmpty(done, jobs);
    for j := 0 to |clusters|
      invariant NoEmptyCluster(done + jobs[..j])
      invariant out == RowsOf(toUV, done + jobs[..j])
    {
      var cluster := clusters[j];
      if |cluster| == 0 {
        assert |jobs[j].cluster| == 0;
        return Err(IndexError);
      }
      assert jobs[j] == Job(i, sensor, cluster);
      RowsStep(toUV, done + jobs[..j], jobs[j]);
      AppendOneMore(done, jobs, j);
      out := out + [ClusterRow(toUV, i, sensor, cluster)];
    }
    assert jobs[..|clusters|] == jobs;
    NoEmptyClusterAppend(done, jobs);
    return Ok(out);
  }

  /** The sensors' loop of `_process` for event `i`: append the rows of
      every sensor of `panels` in turn to `rows`, the rows of `done`, or
      raise IndexError at the first empty group. */
  method EventRowsOf<P>(genCluster: (seq<int>, seq<int>, seq<int>) -> seq<seq<Pixel>>, toUV: (int, int, int) -> (P, P),
                        panels: seq<int>, digits: seq<Digit>, i: int, rows: seq<Row<P>>,
                        ghost jobsOf: (int, int) -> seq<Job>, ghost done: seq<Job>)
    returns (r: Result<seq<Row<P>>>)
    requires forall k :: 0 <= k < |panels| ==> jobsOf(i, panels[k]) == SensorJobs(genCluster, digits, i, panels[k])
    requires NoEmptyCluster(done) && rows == RowsOf(toUV, done)
    ensures
      var jobs := EventJobs(jobsOf, i, panels);
      if NoEmptyCluster(jobs)
      then NoEmptyCluster(done + jobs) && r == Ok(RowsOf(toUV, done + jobs))
      else r == Err(IndexError)
  {
    var out := rows;
    ghost var all := done;
    for k := 0 to |panels|
      invariant all == done + EventJobs(jobsOf, i, panels[..k])
      invariant NoEmptyCluster(all)
      invariant out == RowsOf(toUV, all)
    {
      ghost var jobs := jobsOf(i, panels[k]);
      assert jobs == SensorJobs(genCluster, digits, i, panels[k]);
      var step := SensorRows(genCluster, toUV, digits, i, panels[k], out, all);
      if step.Err? {
        EmptyGroupInEvent(jobsOf, i, panels, k);
        return Err(IndexError);
      }
      assert NoEmptyCluster(all + jobs) && step.value == RowsOf(toUV, all + jobs);
      out := step.value;
      EventJobsStep(jobsOf, i, panels, k);
      AppendAssoc(done, EventJobs(jobsOf, i, panels[..k]), jobs);
      all := all + jobs;
    }
    assert panels[..|panels|] == panels;
    NoEmptyClusterAppend(done, EventJobs(jobsOf, i, panels));
    return Ok(out);
  }

  /** An empty group at sensor `sensors[k]` is among the event's groups. */
  lemma EmptyGroupInEvent(jobsOf: (int, int) -> seq<Job>, i: int, sensors: seq<int>, k: nat)
    requires k < |sensors| && !NoEmptyCluster(jobsOf(i, sensors[k]))
    ensures !NoEmptyCluster(EventJobs(jobsOf, i, sensors))
  {
    var j :| 0 <= j < |jobsOf(i, sensors[k])| && |jobsOf(i, sensors[k])[j].cluster| == 0;
    SensorJobsInEvent(jobsOf, i, sensors, k, j);
  }

  /** An event whose groups include an empty one makes the whole call raise. */
  lemma EmptyEventRaises(jobsOf: (int, int) -> seq<Job>, panels: seq<int>, n: nat, i: nat)
    requires i < n && !NoEmptyCluster(EventJobs(jobsOf, i, panels))
    ensures !NoEmptyCluster(AllJobs(jobsOf, panels, n))
  {
    var q :| 0 <= q < |EventJobs(jobsOf, i, panels)| && |EventJobs(jobsOf, i, panels)[q].cluster| == 0;
    EventJobsInAll(jobsOf, panels, i, n, q);
  }

  /** `_process`: the event / sensor / cluster loops appending one row per
      cluster, then the twelve columns; `panels` is the object's `panelIDs`
      (`PanelIDs` once constructed). */
  method Process<P>(genCluster: (seq<int>, seq<int>, seq<int>) -> seq<seq<Pixel>>, toUV: (int, int, int) -> (P, P),
                    panels: seq<int>, events: seq<seq<Digit>>)
    returns (r: Result<Table<P>>)
    ensures r == ProcessSpec(genCluster, toUV, events, panels)
  {
    ghost var jobsOf := JobsOf(genCluster, events);
    var rows: seq<Row<P>> := [];
    ghost var done: seq<Job> := [];
    for i := 0 to |events|
      invariant done == AllJobs(jobsOf, panels, i)
      invariant NoEmptyCluster(done)
      invariant rows == RowsOf(toUV, done)
    {
      var step := EventRowsOf(genCluster, toUV, panels, events[i], i, rows, jobsOf, done);
      if step.Err? {
        EmptyEventRaises(jobsOf, panels, |events|, i);
        return Err(IndexError);
      }
      rows := step.value;
      done := done + EventJobs(jobsOf, i, panels);
    }
    r := Ok(Tabulate(rows));
  }
}
