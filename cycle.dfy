/**
 * The writes one UpdateMetrics call performs (main.go:304-443), as a
 * sequence of Series writes in the order the source issues them, and what
 * that sequence does to the registry's series.
 */
module Cycle {
  import opened Catalog
  import opened Identity
  import opened Samples
  import opened Series

  /** The exporter's settings that reach a label or a value (main.go:22-29). */
  datatype Config = Config(
    nodeName: string,
    nodePoolId: string,
    podSource: string,
    gpuCount: int,
    driverVersion: string)

  const ModelName: string := "PPU-ZW810E"

  /** The labels of a device-scoped vector (main.go:316-325). */
  function DeviceLabels(c: Config, i: nat, uuid: string): map<Label, string>
  {
    map[LabelHostname := c.nodeName, LabelNodeName := c.nodeName, LabelNodePoolId := c.nodePoolId,
        LabelPodSource := c.podSource, LabelUuid := uuid, LabelDevice := DeviceName(i),
        LabelGpu := GpuLabel(i), LabelModelName := ""]
  }

  /** The labels of the two custom device vectors (main.go:327-337). */
  function CustomDeviceLabels(c: Config, i: nat, uuid: string): map<Label, string>
  {
    map[LabelDriverVersion := c.driverVersion, LabelNodeName := c.nodeName, LabelNodePoolId := c.nodePoolId,
        LabelPodSource := c.podSource, LabelSupportDcgm := "Yes", LabelUuid := uuid,
        LabelDevice := DeviceName(i), LabelGpu := GpuLabel(i), LabelModelName := ModelName]
  }

  /** The labels of the illegal-process vectors (main.go:412-427). */
  function IllegalLabels(c: Config, g: nat, uuid: string): map<Label, string>
  {
    map[LabelAllocateMode := "none", LabelContainerName := "", LabelNamespaceName := "",
        LabelNodeName := c.nodeName, LabelNodePoolId := c.nodePoolId, LabelPodName := "",
        LabelPodSource := c.podSource, LabelProcessId := "3003", LabelProcessName := "python",
        LabelProcessType := "C", LabelUuid := uuid, LabelDevice := DeviceName(g),
        LabelGpu := GpuLabel(g), LabelModelName := ModelName]
  }

  /** Each label builder fills in exactly the names of its schema. */
  lemma LabelsMatchSchemas(c: Config, i: nat, uuid: string)
    ensures DeviceLabels(c, i, uuid).Keys == SchemaKeys(Device)
    ensures CustomDeviceLabels(c, i, uuid).Keys == SchemaKeys(CustomDevice)
    ensures IllegalLabels(c, i, uuid).Keys == SchemaKeys(IllegalProcess)
  {
    DeviceLabelsMatch(c, i, uuid);
    CustomDeviceLabelsMatch(c, i, uuid);
    IllegalLabelsMatch(c, i, uuid);
  }

  lemma DeviceLabelsMatch(c: Config, i: nat, uuid: string)
    ensures DeviceLabels(c, i, uuid).Keys == SchemaKeys(Device)
  {
    var d := SchemaLabels(Device);
    assert SchemaKeys(Device) == {d[0], d[1], d[2], d[3], d[4], d[5], d[6], d[7]};
  }

  lemma CustomDeviceLabelsMatch(c: Config, i: nat, uuid: string)
    ensures CustomDeviceLabels(c, i, uuid).Keys == SchemaKeys(CustomDevice)
  {
    var e := SchemaLabels(CustomDevice);
    assert SchemaKeys(CustomDevice) == {e[0], e[1], e[2], e[3], e[4], e[5], e[6], e[7], e[8]};
  }

  lemma IllegalLabelsMatch(c: Config, i: nat, uuid: string)
    ensures IllegalLabels(c, i, uuid).Keys == SchemaKeys(IllegalProcess)
  {
    var f := SchemaLabels(IllegalProcess);
    assert SchemaKeys(IllegalProcess)
        == {f[0], f[1], f[2], f[3], f[4], f[5], f[6], f[7], f[8], f[9], f[10], f[11], f[12], f[13]};
  }

  /**
   * The position of a vector among the 29 writes of one device-loop
   * iteration (main.go:348-403), or -1 for the header gauges and the
   * illegal-process vectors, which the device loop does not touch.
   */
  function DevicePosition(m: Metric): int
  {
    match m
    case DevFbAllocated => 0
    case DevFbTotal => 1
    case DevAppMemClock => 2
    case DevAppSmClock => 3
    case DevBar1Total => 4
    case DevBar1Used => 5
    case DevClockThrottleReasons => 6
    case DevDecUtil => 7
    case DevEncUtil => 8
    case DevGpuUtil => 9
    case DevFbFree => 10
    case DevFbUsed => 11
    case DevMemCopyUtil => 12
    case DevGpuTemp => 13
    case DevMemoryTemp => 14
    case DevMemClock => 15
    case DevSmClock => 16
    case DevVideoClock => 17
    case DevPowerUsage => 18
    case DevRetiredDbe => 19
    case DevRetiredPending => 20
    case DevRetiredSbe => 21
    case DevXidErrors => 22
    case DevNvlinkBandwidthTotal => 23
    case ProfDramActive => 24
    case ProfNvlinkRxBytes => 25
    case ProfNvlinkTxBytes => 26
    case ProfPcieRxBytes => 27
    case ProfPcieTxBytes => 28
    case _ => -1
  }

  /** The vector the device loop writes at a position: the inverse of DevicePosition. */
  function DeviceMetric(k: nat): (m: Metric)
    requires k < 29
    ensures DevicePosition(m) == k
  {
    if k < 10 then DeviceMetric0(k) else if k < 20 then DeviceMetric10(k) else DeviceMetric20(k)
  }

  function DeviceMetric0(k: nat): (m: Metric)
    requires 0 <= k < 10
    ensures DevicePosition(m) == k
  {
    if k == 0 then DevFbAllocated
    else if k == 1 then DevFbTotal
    else if k == 2 then DevAppMemClock
    else if k == 3 then DevAppSmClock
    else if k == 4 then DevBar1Total
    else if k == 5 then DevBar1Used
    else if k == 6 then DevClockThrottleReasons
    else if k == 7 then DevDecUtil
    else if k == 8 then DevEncUtil
    else DevGpuUtil
  }

  function DeviceMetric10(k: nat): (m: Metric)
    requires 10 <= k < 20
    ensures DevicePosition(m) == k
  {
    if k == 10 then DevFbFree
    else if k == 11 then DevFbUsed
    else if k == 12 then DevMemCopyUtil
    else if k == 13 then DevGpuTemp
    else if k == 14 then DevMemoryTemp
    else if k == 15 then DevMemClock
    else if k == 16 then DevSmClock
    else if k == 17 then DevVideoClock
    else if k == 18 then DevPowerUsage
    else DevRetiredDbe
  }

  function DeviceMetric20(k: nat): (m: Metric)
    requires 20 <= k < 29
    ensures DevicePosition(m) == k
  {
    if k == 20 then DevRetiredPending
    else if k == 21 then DevRetiredSbe
    else if k == 22 then DevXidErrors
    else if k == 23 then DevNvlinkBandwidthTotal
    else if k == 24 then ProfDramActive
    else if k == 25 then ProfNvlinkRxBytes
    else if k == 26 then ProfNvlinkTxBytes
    else if k == 27 then ProfPcieRxBytes
    else ProfPcieTxBytes
  }

  /** The value a gauge of device-loop iteration gets from the sampled readings (main.go:348-403). */
  function DeviceValue(m: Metric, s: DeviceSample): real
  {
    match m
    case DevFbTotal | DevBar1Total => MemoryTotal
    case DevAppMemClock | DevMemClock => 1800.0
    case DevAppSmClock => 1700.0
    case DevBar1Used | DevFbUsed => s.fbUsed
    case DevFbFree => s.fbFree
    case DevClockThrottleReasons => s.throttle
    case DevGpuUtil => s.gpuUtil
    case DevMemCopyUtil => s.memCopy
    case DevGpuTemp => s.gpuTemp
    case DevMemoryTemp => s.memTemp
    case DevSmClock => 200.0
    case DevVideoClock => 1000.0
    case DevPowerUsage => s.power
    case ProfDramActive => s.dramActive
    case _ => 0.0
  }

  /** The series of vector m for device i: the custom vectors carry the custom label set. */
  function DeviceKey(c: Config, i: nat, d: Draws, m: Metric): SeriesKey
  {
    var uuid := GenerateUUID(i, d.uuidFill);
    if SchemaOf(m) == CustomDevice then SeriesKey(m, CustomDeviceLabels(c, i, uuid))
    else SeriesKey(m, DeviceLabels(c, i, uuid))
  }

  /** The write of vector m for device i: counters are given Add(0), gauges are Set. */
  function DeviceWrite(c: Config, i: nat, d: Draws, m: Metric): Write
  {
    var k := DeviceKey(c, i, d, m);
    if KindOf(m) == Counter then Add(k, 0.0) else Set(k, DeviceValue(m, Sample(i, d)))
  }

  /** The 29 writes of one device-loop iteration, in source order. */
  function DeviceWrites(c: Config, i: nat, d: Draws): (ws: seq<Write>)
    ensures |ws| == 29
    ensures forall k :: 0 <= k < 29 ==> ws[k] == DeviceWrite(c, i, d, DeviceMetric(k))
  {
    seq(29, k requires 0 <= k < 29 => DeviceWrite(c, i, d, DeviceMetric(k)))
  }

  /** The vectors the device loop writes are exactly the device-scoped ones. */
  lemma DeviceMetricSchemas(m: Metric)
    ensures DevicePosition(m) >= 0 <==> SchemaOf(m) == Device || SchemaOf(m) == CustomDevice
  {
  }

  /** The writes of one device are lawful and touch 29 different series. */
  lemma DeviceWritesSound(c: Config, i: nat, d: Draws)
    ensures AllLawful(DeviceWrites(c, i, d))
    ensures DistinctKeys(DeviceWrites(c, i, d))
  {
    var ws := DeviceWrites(c, i, d);
    LabelsMatchSchemas(c, i, GenerateUUID(i, d.uuidFill));
    forall k | 0 <= k < 29
      ensures Lawful(ws[k])
    {
      DeviceMetricSchemas(DeviceMetric(k));
    }
    forall k, k' | 0 <= k < k' < 29
      ensures ws[k].key != ws[k'].key
    {
      assert ws[k].key.metric == DeviceMetric(k);
    }
  }

  /** The number of device-loop iterations: GPUCount, or none when it is not positive. */
  function DeviceCount(c: Config): nat
  {
    if c.gpuCount > 0 then c.gpuCount else 0
  }

  /** The two unlabelled gauges set before the device loop (main.go:305-309). */
  function HeaderWrites(c: Config): seq<Write>
  {
    [Set(SeriesKey(AllocateMode, map[]), 0.0), Set(SeriesKey(DevCount, map[]), c.gpuCount as real)]
  }

  /** The writes of each of the first n iterations of the device loop, draws ds[i] for device i. */
  function DeviceBlocks(c: Config, ds: seq<Draws>, n: nat): (bs: seq<seq<Write>>)
    requires n <= |ds|
    ensures |bs| == n && forall i :: 0 <= i < n ==> bs[i] == DeviceWrites(c, i, ds[i])
  {
    seq(n, i requires 0 <= i < n => DeviceWrites(c, i, ds[i]))
  }

  /** The writes of the first n iterations of the device loop (main.go:311-404), in order. */
  function DevicesWrites(c: Config, ds: seq<Draws>, n: nat): seq<Write>
    requires n <= |ds|
  {
    Flatten(DeviceBlocks(c, ds, n))
  }

  /** One more iteration of the device loop appends that device's writes. */
  lemma DevicesWritesStep(c: Config, ds: seq<Draws>, n: nat)
    requires n < |ds|
    ensures DevicesWrites(c, ds, n + 1) == DevicesWrites(c, ds, n) + DeviceWrites(c, n, ds[n])
  {
    assert DeviceBlocks(c, ds, n + 1)[..n] == DeviceBlocks(c, ds, n);
  }

  /**
   * The fill passed for the illegal-process identifiers: both of their
   * indices are below the canned table's length, so generateUUID draws
   * nothing and the fill is never read.
   */
  const NoFill: UuidFill := UuidFill(0, 0, 0)

  /** The series of an illegal-process vector for device g. */
  function IllegalKey(c: Config, g: nat, m: Metric): SeriesKey
  {
    SeriesKey(m, IllegalLabels(c, g, GenerateUUID(g, NoFill)))
  }

  /** The position of a vector among the five writes of the illegal-process loop, or -1. */
  function IllegalPosition(m: Metric): int
  {
    match m
    case IllegalDecodeUtil => 0
    case IllegalEncodeUtil => 1
    case IllegalMemCopyUtil => 2
    case IllegalMemUsed => 3
    case IllegalSmUtil => 4
    case _ => -1
  }

  function IllegalMetric(k: nat): (m: Metric)
    requires k < 5
    ensures IllegalPosition(m) == k
  {
    if k == 0 then IllegalDecodeUtil
    else if k == 1 then IllegalEncodeUtil
    else if k == 2 then IllegalMemCopyUtil
    else if k == 3 then IllegalMemUsed
    else IllegalSmUtil
  }

  /** The value an illegal-process vector gets for device g (main.go:430-441). */
  function IllegalValue(g: nat, m: Metric): real
  {
    match m
    case IllegalMemCopyUtil => if g == 14 then 4.0 else 0.0
    case IllegalMemUsed => if g == 14 then 4454.0 else 544.0
    case _ => 0.0
  }

  /** One iteration of the illegal-process loop (main.go:407-442): five Sets in source order. */
  function IllegalWrites(c: Config, g: nat): (ws: seq<Write>)
    ensures |ws| == 5
    ensures forall k :: 0 <= k < 5 ==> ws[k] == Set(IllegalKey(c, g, IllegalMetric(k)), IllegalValue(g, IllegalMetric(k)))
  {
    seq(5, k requires 0 <= k < 5 => Set(IllegalKey(c, g, IllegalMetric(k)), IllegalValue(g, IllegalMetric(k))))
  }

  /** All writes of one UpdateMetrics call, draws ds[i] for device i. */
  function CycleWrites(c: Config, ds: seq<Draws>): seq<Write>
    requires |ds| == DeviceCount(c)
  {
    HeaderWrites(c) + DevicesWrites(c, ds, |ds|) + IllegalWrites(c, 0) + IllegalWrites(c, 14)
  }

  /** Mul by the 29 writes of a device is the ordinary product. */
  lemma {:induction false} MulByBlock(n: nat)
    ensures Mul(29, n) == 29 * n
  {
    if n > 0 {
      MulByBlock(n - 1);
    }
  }

  /** Write p of device i sits at 29 * i + p of the device loop's run, and nowhere else. */
  lemma DivByBlock(i: nat, p: nat)
    requires p < 29
    ensures (29 * i + p) / 29 == i && (29 * i + p) % 29 == p
  {
  }

  lemma DevicesWritesLength(c: Config, ds: seq<Draws>, n: nat)
    requires n <= |ds|
    ensures |DevicesWrites(c, ds, n)| == 29 * n
  {
    FlattenLength(DeviceBlocks(c, ds, n), 29);
    MulByBlock(n);
  }

  /** Every write of the device loop is the write of some vector for some device. */
  lemma DevicesWriteAt(c: Config, ds: seq<Draws>, n: nat, j: nat)
    requires n <= |ds| && j < 29 * n
    ensures |DevicesWrites(c, ds, n)| == 29 * n
    ensures j / 29 < n
    ensures DevicesWrites(c, ds, n)[j] == DeviceWrite(c, j / 29, ds[j / 29], DeviceMetric(j % 29))
  {
    DevicesWritesLength(c, ds, n);
    var i, k := FlattenIndex(DeviceBlocks(c, ds, n), 29, j);
    MulByBlock(i);
    assert j / 29 == i && j % 29 == k;
  }

  /** The device label of a device-scoped series names its device. */
  lemma DeviceKeyGpu(c: Config, i: nat, d: Draws, m: Metric)
    ensures LabelGpu in DeviceKey(c, i, d, m).labels
    ensures DeviceKey(c, i, d, m).labels[LabelGpu] == GpuLabel(i)
    ensures LabelUuid in DeviceKey(c, i, d, m).labels
    ensures DeviceKey(c, i, d, m).labels[LabelUuid] == GenerateUUID(i, d.uuidFill)
  {
  }

  /** The device loop writes each series once: devices differ in their gpu label, vectors within a device differ. */
  lemma DevicesWritesDistinct(c: Config, ds: seq<Draws>, n: nat)
    requires n <= |ds|
    ensures DistinctKeys(DevicesWrites(c, ds, n))
  {
    var ws := DevicesWrites(c, ds, n);
    DevicesWritesLength(c, ds, n);
    forall j, j' | 0 <= j < j' < |ws|
      ensures ws[j].key != ws[j'].key
    {
      DevicesWritesDiffer(c, ds, n, j, j');
    }
  }

  lemma DevicesWritesDiffer(c: Config, ds: seq<Draws>, n: nat, j: nat, j': nat)
    requires n <= |ds| && j < j' < 29 * n
    ensures |DevicesWrites(c, ds, n)| == 29 * n
    ensures DevicesWrites(c, ds, n)[j].key != DevicesWrites(c, ds, n)[j'].key
  {
    DevicesWriteAt(c, ds, n, j);
    DevicesWriteAt(c, ds, n, j');
    var i, i' := j / 29, j' / 29;
    if i == i' {
      SameBlockDiffers(j, j');
      assert DeviceMetric(j % 29) != DeviceMetric(j' % 29);
    } else {
      DeviceKeyGpu(c, i, ds[i], DeviceMetric(j % 29));
      DeviceKeyGpu(c, i', ds[i'], DeviceMetric(j' % 29));
      if GpuLabel(i) == GpuLabel(i') {
        GpuLabelInjective(i, i');
      }
    }
  }

  /** Two positions of the same device's block are different writes of it. */
  lemma SameBlockDiffers(j: nat, j': nat)
    requires j != j' && j / 29 == j' / 29
    ensures j % 29 != j' % 29
  {
  }

  /** Every write of the device loop is lawful and goes to a device-scoped vector. */
  lemma DevicesWritesLawful(c: Config, ds: seq<Draws>, n: nat)
    requires n <= |ds|
    ensures AllLawful(DevicesWrites(c, ds, n))
    ensures forall j :: 0 <= j < |DevicesWrites(c, ds, n)| ==> DevicePosition(DevicesWrites(c, ds, n)[j].key.metric) >= 0
  {
    var ws := DevicesWrites(c, ds, n);
    DevicesWritesLength(c, ds, n);
    forall j | 0 <= j < |ws|
      ensures Lawful(ws[j]) && DevicePosition(ws[j].key.metric) >= 0
    {
      DevicesWriteAt(c, ds, n, j);
      DeviceWritesSound(c, j / 29, ds[j / 29]);
      assert ws[j] == DeviceWrites(c, j / 29, ds[j / 29])[j % 29];
    }
  }

  /** The illegal-process writes of one device are lawful, distinct, and carry its gpu label. */
  lemma IllegalWritesSound(c: Config, g: nat)
    ensures AllLawful(IllegalWrites(c, g)) && DistinctKeys(IllegalWrites(c, g))
    ensures forall j :: 0 <= j < 5 ==>
      var k := IllegalWrites(c, g)[j].key;
      SchemaOf(k.metric) == IllegalProcess && LabelGpu in k.labels && k.labels[LabelGpu] == GpuLabel(g)
  {
    var ws := IllegalWrites(c, g);
    var l := IllegalLabels(c, g, GenerateUUID(g, NoFill));
    LabelsMatchSchemas(c, g, GenerateUUID(g, NoFill));
    assert LabelGpu in l && l[LabelGpu] == GpuLabel(g);
    forall j | 0 <= j < 5
      ensures ws[j].key.labels == l && ws[j].Set? && SchemaOf(ws[j].key.metric) == IllegalProcess
    {
    }
  }

  /** The two header gauges are unlabelled and lawful, and no other write of a cycle touches their vectors. */
  lemma HeaderWritesSound(c: Config)
    ensures AllLawful(HeaderWrites(c)) && DistinctKeys(HeaderWrites(c))
    ensures forall j :: 0 <= j < 2 ==> SchemaOf(HeaderWrites(c)[j].key.metric) == NoLabels
  {
    assert SchemaKeys(NoLabels) == {};
  }

  /** gpu labels "0" and "14" differ. */
  lemma IllegalGpusDiffer()
    ensures GpuLabel(0) != GpuLabel(14)
  {
    if GpuLabel(0) == GpuLabel(14) {
      GpuLabelInjective(0, 14);
    }
  }

  /**
   * One UpdateMetrics call never makes the client library panic: every label
   * map matches its vector, gauges are only Set, counters only get a
   * non-negative Add. And it writes no series twice.
   */
  lemma CycleSound(c: Config, ds: seq<Draws>)
    requires |ds| == DeviceCount(c)
    ensures AllLawful(CycleWrites(c, ds))
    ensures DistinctKeys(CycleWrites(c, ds))
  {
    var h, rest := HeaderWrites(c), DevicesWrites(c, ds, |ds|) + IllegalRun(c);
    HeaderWritesSound(c);
    RestSound(c, ds);
    DistinctConcat(h, rest);
    AllLawfulConcat(h, rest);
    assert CycleWrites(c, ds) == h + rest;
  }

  /** The writes of the illegal-process loop, gpu "0" then gpu "14". */
  function IllegalRun(c: Config): seq<Write>
  {
    IllegalWrites(c, 0) + IllegalWrites(c, 14)
  }

  /** The illegal-process loop is lawful, writes no series twice and only illegal-process series. */
  lemma IllegalRunSound(c: Config)
    ensures AllLawful(IllegalRun(c)) && DistinctKeys(IllegalRun(c))
    ensures forall j :: 0 <= j < |IllegalRun(c)| ==> SchemaOf(IllegalRun(c)[j].key.metric) == IllegalProcess
  {
    var i0, i14 := IllegalWrites(c, 0), IllegalWrites(c, 14);
    IllegalWritesSound(c, 0);
    IllegalWritesSound(c, 14);
    IllegalGpusDiffer();
    DistinctConcat(i0, i14);
    AllLawfulConcat(i0, i14);
    assert forall j :: 0 <= j < |i0 + i14| ==> (i0 + i14)[j] == if j < 5 then i0[j] else i14[j - 5];
  }

  /** Everything after the header: lawful, free of repeats, and never a series without labels. */
  lemma RestSound(c: Config, ds: seq<Draws>)
    requires |ds| == DeviceCount(c)
    ensures var rest := DevicesWrites(c, ds, |ds|) + IllegalRun(c);
      && AllLawful(rest) && DistinctKeys(rest)
      && forall j :: 0 <= j < |rest| ==> SchemaOf(rest[j].key.metric) != NoLabels
  {
    var dw, ill := DevicesWrites(c, ds, |ds|), IllegalRun(c);
    DevicesWritesLawful(c, ds, |ds|);
    DevicesWritesDistinct(c, ds, |ds|);
    IllegalRunSound(c);
    forall m | DevicePosition(m) >= 0
      ensures SchemaOf(m) != IllegalProcess && SchemaOf(m) != NoLabels
    {
      DeviceMetricSchemas(m);
    }
    DistinctConcat(dw, ill);
    AllLawfulConcat(dw, ill);
    assert forall j :: 0 <= j < |dw + ill| ==> (dw + ill)[j] == if j < |dw| then dw[j] else ill[j - |dw|];
  }

  lemma DeviceMetricInverse(m: Metric)
    requires DevicePosition(m) >= 0
    ensures DevicePosition(m) < 29 && DeviceMetric(DevicePosition(m)) == m
  {
    match m
    case DevFbAllocated =>
    case DevFbTotal =>
    case DevAppMemClock =>
    case DevAppSmClock =>
    case DevBar1Total =>
    case DevBar1Used =>
    case DevClockThrottleReasons =>
    case DevDecUtil =>
    case DevEncUtil =>
    case DevGpuUtil =>
    case DevFbFree =>
    case DevFbUsed =>
    case DevMemCopyUtil =>
    case DevGpuTemp =>
    case DevMemoryTemp =>
    case DevMemClock =>
    case DevSmClock =>
    case DevVideoClock =>
    case DevPowerUsage =>
    case DevRetiredDbe =>
    case DevRetiredPending =>
    case DevRetiredSbe =>
    case DevXidErrors =>
    case DevNvlinkBandwidthTotal =>
    case ProfDramActive =>
    case ProfNvlinkRxBytes =>
    case ProfNvlinkTxBytes =>
    case ProfPcieRxBytes =>
    case ProfPcieTxBytes =>
  }

  /** The store after one UpdateMetrics call that started from s. */
  function AfterCycle(s: Store, c: Config, ds: seq<Draws>): Store
    requires |ds| == DeviceCount(c)
  {
    ApplyAll(s, CycleWrites(c, ds))
  }

  /** Where device i's write of vector m sits in the cycle's run. */
  lemma CycleDeviceIndex(c: Config, ds: seq<Draws>, i: nat, m: Metric) returns (j: nat)
    requires |ds| == DeviceCount(c) && i < |ds| && DevicePosition(m) >= 0
    ensures j < |CycleWrites(c, ds)| && CycleWrites(c, ds)[j] == DeviceWrite(c, i, ds[i], m)
  {
    DeviceMetricInverse(m);
    var p := DevicePosition(m);
    var t := 29 * i + p;
    DivByBlock(i, p);
    DevicesWriteAt(c, ds, |ds|, t);
    j := 2 + t;
    CycleParts(c, ds, j);
  }

  /** What a device write leaves in its series, given the value before. */
  lemma DeviceWriteEffect(c: Config, i: nat, d: Draws, m: Metric, prev: real)
    ensures DeviceWrite(c, i, d, m).key == DeviceKey(c, i, d, m)
    ensures Effect(prev, DeviceWrite(c, i, d, m)) == if KindOf(m) == Counter then prev else DeviceValue(m, Sample(i, d))
  {
  }

  /**
   * After a cycle every device-scoped series of every device exists; a gauge
   * holds the value computed for it, a counter its old value (plus zero).
   */
  lemma CycleDeviceValue(s: Store, c: Config, ds: seq<Draws>, i: nat, m: Metric)
    requires |ds| == DeviceCount(c) && i < |ds| && DevicePosition(m) >= 0
    ensures var k := DeviceKey(c, i, ds[i], m);
      && k in AfterCycle(s, c, ds)
      && AfterCycle(s, c, ds)[k] == if KindOf(m) == Counter then Value(s, k) else DeviceValue(m, Sample(i, ds[i]))
  {
    CycleSound(c, ds);
    var j := CycleDeviceIndex(c, ds, i, m);
    var k := DeviceKey(c, i, ds[i], m);
    DeviceWriteEffect(c, i, ds[i], m, Value(s, k));
    ApplyAllDistinct(s, CycleWrites(c, ds), j);
  }

  /** A gauge of device i after a cycle holds the value the cycle computed for it. */
  lemma CycleGaugeValue(s: Store, c: Config, ds: seq<Draws>, i: nat, m: Metric)
    requires |ds| == DeviceCount(c) && i < |ds| && DevicePosition(m) >= 0 && KindOf(m) == Gauge
    ensures DeviceKey(c, i, ds[i], m) in AfterCycle(s, c, ds)
    ensures AfterCycle(s, c, ds)[DeviceKey(c, i, ds[i], m)] == DeviceValue(m, Sample(i, ds[i]))
  {
    CycleDeviceValue(s, c, ds, i, m);
  }

  /** Free and used framebuffer memory of a device add up to its total, 98304 MiB, after a cycle. */
  lemma CycleMemorySum(s: Store, c: Config, ds: seq<Draws>, i: nat)
    requires |ds| == DeviceCount(c) && i < |ds|
    ensures var r := AfterCycle(s, c, ds);
      && DeviceKey(c, i, ds[i], DevFbUsed) in r && DeviceKey(c, i, ds[i], DevFbFree) in r && DeviceKey(c, i, ds[i], DevFbTotal) in r
      && r[DeviceKey(c, i, ds[i], DevFbUsed)] + r[DeviceKey(c, i, ds[i], DevFbFree)] == r[DeviceKey(c, i, ds[i], DevFbTotal)] == 98304.0
  {
    CycleGaugeValue(s, c, ds, i, DevFbUsed);
    CycleGaugeValue(s, c, ds, i, DevFbFree);
    CycleGaugeValue(s, c, ds, i, DevFbTotal);
  }

  /** The BAR1 gauges of a device mirror the framebuffer: total 98304 MiB, used equal to framebuffer used. */
  lemma CycleBar1Mirrors(s: Store, c: Config, ds: seq<Draws>, i: nat)
    requires |ds| == DeviceCount(c) && i < |ds|
    ensures var r := AfterCycle(s, c, ds);
      && DeviceKey(c, i, ds[i], DevBar1Total) in r && DeviceKey(c, i, ds[i], DevBar1Used) in r && DeviceKey(c, i, ds[i], DevFbUsed) in r
      && r[DeviceKey(c, i, ds[i], DevBar1Total)] == 98304.0
      && r[DeviceKey(c, i, ds[i], DevBar1Used)] == r[DeviceKey(c, i, ds[i], DevFbUsed)]
  {
    CycleGaugeValue(s, c, ds, i, DevBar1Total);
    CycleGaugeValue(s, c, ds, i, DevBar1Used);
    CycleGaugeValue(s, c, ds, i, DevFbUsed);
  }

  /** Used framebuffer memory after a cycle: [500, 4500) MiB on devices 0 and 14, [18, 118) MiB elsewhere. */
  lemma CycleMemoryUsedRange(s: Store, c: Config, ds: seq<Draws>, i: nat)
    requires |ds| == DeviceCount(c) && i < |ds| && ValidDraws(ds[i])
    ensures var r := AfterCycle(s, c, ds);
      && DeviceKey(c, i, ds[i], DevFbUsed) in r
      && (IsHot(i) ==> 500.0 <= r[DeviceKey(c, i, ds[i], DevFbUsed)] < 4500.0)
      && (!IsHot(i) ==> 18.0 <= r[DeviceKey(c, i, ds[i], DevFbUsed)] < 118.0)
  {
    CycleGaugeValue(s, c, ds, i, DevFbUsed);
    MemoryRanges(i, ds[i]);
  }

  /** The throttle-reason gauge of a device reads 1 (idle) or 5 (power cap) after a cycle. */
  lemma CycleThrottleReason(s: Store, c: Config, ds: seq<Draws>, i: nat)
    requires |ds| == DeviceCount(c) && i < |ds|
    ensures var r := AfterCycle(s, c, ds);
      DeviceKey(c, i, ds[i], DevClockThrottleReasons) in r
      && (r[DeviceKey(c, i, ds[i], DevClockThrottleReasons)] == 1.0 || r[DeviceKey(c, i, ds[i], DevClockThrottleReasons)] == 5.0)
  {
    CycleGaugeValue(s, c, ds, i, DevClockThrottleReasons);
  }

  /** GPU temperature lies in [30, 40) after a cycle and memory runs at least two degrees warmer. */
  lemma CycleTemperatures(s: Store, c: Config, ds: seq<Draws>, i: nat)
    requires |ds| == DeviceCount(c) && i < |ds| && ValidDraws(ds[i])
    ensures var r := AfterCycle(s, c, ds);
      && DeviceKey(c, i, ds[i], DevGpuTemp) in r && DeviceKey(c, i, ds[i], DevMemoryTemp) in r
      && 30.0 <= r[DeviceKey(c, i, ds[i], DevGpuTemp)] < 40.0
      && r[DeviceKey(c, i, ds[i], DevGpuTemp)] + 2.0 <= r[DeviceKey(c, i, ds[i], DevMemoryTemp)]
  {
    CycleGaugeValue(s, c, ds, i, DevGpuTemp);
    CycleGaugeValue(s, c, ds, i, DevMemoryTemp);
    ReadingRanges(i, ds[i]);
  }

  /** Power draw lies in [80, 95) W and GPU utilisation in [0, 10) % after a cycle. */
  lemma CyclePowerAndUtil(s: Store, c: Config, ds: seq<Draws>, i: nat)
    requires |ds| == DeviceCount(c) && i < |ds| && ValidDraws(ds[i])
    ensures var r := AfterCycle(s, c, ds);
      && DeviceKey(c, i, ds[i], DevPowerUsage) in r && DeviceKey(c, i, ds[i], DevGpuUtil) in r
      && 80.0 <= r[DeviceKey(c, i, ds[i], DevPowerUsage)] < 95.0
      && 0.0 <= r[DeviceKey(c, i, ds[i], DevGpuUtil)] < 10.0
  {
    CycleGaugeValue(s, c, ds, i, DevPowerUsage);
    CycleGaugeValue(s, c, ds, i, DevGpuUtil);
    ReadingRanges(i, ds[i]);
  }

  /** Memory-copy utilisation and DRAM activity lie in [0, 5) after a cycle. */
  lemma CycleCopyAndDram(s: Store, c: Config, ds: seq<Draws>, i: nat)
    requires |ds| == DeviceCount(c) && i < |ds| && ValidDraws(ds[i])
    ensures var r := AfterCycle(s, c, ds);
      && DeviceKey(c, i, ds[i], DevMemCopyUtil) in r && DeviceKey(c, i, ds[i], ProfDramActive) in r
      && 0.0 <= r[DeviceKey(c, i, ds[i], DevMemCopyUtil)] < 5.0
      && 0.0 <= r[DeviceKey(c, i, ds[i], ProfDramActive)] < 5.0
  {
    CycleGaugeValue(s, c, ds, i, DevMemCopyUtil);
    CycleGaugeValue(s, c, ds, i, ProfDramActive);
    ReadingRanges(i, ds[i]);
  }

  /** Where each part of the cycle's run sits: the header, the device loop, then the two illegal-process rounds. */
  lemma CycleLayout(c: Config, ds: seq<Draws>)
    requires |ds| == DeviceCount(c)
    ensures var ws, n := CycleWrites(c, ds), 29 * |ds|;
      && |ws| == 2 + n + 10
      && ws[..2] == HeaderWrites(c)
      && ws[2..2 + n] == DevicesWrites(c, ds, |ds|)
      && ws[2 + n..2 + n + 5] == IllegalWrites(c, 0)
      && ws[2 + n + 5..] == IllegalWrites(c, 14)
  {
    DevicesWritesLength(c, ds, |ds|);
    var h, dw, i0, i14 := HeaderWrites(c), DevicesWrites(c, ds, |ds|), IllegalWrites(c, 0), IllegalWrites(c, 14);
    var ws := CycleWrites(c, ds);
    assert ws == h + dw + i0 + i14;
  }

  /** The two unlabelled gauges after a cycle: allocate mode 0 and the device count GPUCount. */
  lemma CycleHeaderValues(s: Store, c: Config, ds: seq<Draws>)
    requires |ds| == DeviceCount(c)
    ensures var r := AfterCycle(s, c, ds);
      && SeriesKey(AllocateMode, map[]) in r && r[SeriesKey(AllocateMode, map[])] == 0.0
      && SeriesKey(DevCount, map[]) in r && r[SeriesKey(DevCount, map[])] == c.gpuCount as real
  {
    var ws := CycleWrites(c, ds);
    CycleSound(c, ds);
    CycleLayout(c, ds);
    assert ws[0] == ws[..2][0] && ws[1] == ws[..2][1];
    ApplyAllDistinct(s, ws, 0);
    ApplyAllDistinct(s, ws, 1);
  }

  lemma IllegalMetricInverse(m: Metric)
    requires SchemaOf(m) == IllegalProcess
    ensures 0 <= IllegalPosition(m) < 5 && IllegalMetric(IllegalPosition(m)) == m
  {
  }

  /** Each illegal-process series of devices 0 and 14 exists after a cycle, whatever GPUCount is, with its fixed value. */
  lemma CycleIllegalValue(s: Store, c: Config, ds: seq<Draws>, g: nat, m: Metric)
    requires |ds| == DeviceCount(c) && (g == 0 || g == 14) && SchemaOf(m) == IllegalProcess
    ensures IllegalKey(c, g, m) in AfterCycle(s, c, ds)
    ensures AfterCycle(s, c, ds)[IllegalKey(c, g, m)] == IllegalValue(g, m)
  {
    var ws := CycleWrites(c, ds);
    var b := 2 + 29 * |ds|;
    CycleSound(c, ds);
    IllegalMetricInverse(m);
    var p := IllegalPosition(m);
    var j := if g == 0 then b + p else b + 5 + p;
    CycleLength(c, ds);
    CycleParts(c, ds, j);
    ApplyAllDistinct(s, ws, j);
  }

  /**
   * The illegal-process series after a cycle: device 14 shows 4454 MiB used
   * and 4% memory-copy utilisation, device 0 shows 544 MiB and 0%, and the
   * decode, encode and SM utilisations are 0 on both.
   */
  lemma CycleIllegalValues(s: Store, c: Config, ds: seq<Draws>)
    requires |ds| == DeviceCount(c)
    ensures var r := AfterCycle(s, c, ds);
      && IllegalKey(c, 14, IllegalMemUsed) in r && r[IllegalKey(c, 14, IllegalMemUsed)] == 4454.0
      && IllegalKey(c, 14, IllegalMemCopyUtil) in r && r[IllegalKey(c, 14, IllegalMemCopyUtil)] == 4.0
      && IllegalKey(c, 0, IllegalMemUsed) in r && r[IllegalKey(c, 0, IllegalMemUsed)] == 544.0
      && IllegalKey(c, 0, IllegalMemCopyUtil) in r && r[IllegalKey(c, 0, IllegalMemCopyUtil)] == 0.0
      && forall g, m :: (g == 0 || g == 14) && m in {IllegalDecodeUtil, IllegalEncodeUtil, IllegalSmUtil} ==>
           IllegalKey(c, g, m) in r && r[IllegalKey(c, g, m)] == 0.0
  {
    CycleIllegalValue(s, c, ds, 14, IllegalMemUsed);
    CycleIllegalValue(s, c, ds, 14, IllegalMemCopyUtil);
    CycleIllegalValue(s, c, ds, 0, IllegalMemUsed);
    CycleIllegalValue(s, c, ds, 0, IllegalMemCopyUtil);
    forall g, m | (g == 0 || g == 14) && m in {IllegalDecodeUtil, IllegalEncodeUtil, IllegalSmUtil}
      ensures IllegalKey(c, g, m) in AfterCycle(s, c, ds) && AfterCycle(s, c, ds)[IllegalKey(c, g, m)] == 0.0
    {
      CycleIllegalValue(s, c, ds, g, m);
    }
  }

  /** Position j of four runs issued one after the other. */
  lemma Concat4At(a: seq<Write>, b: seq<Write>, c: seq<Write>, d: seq<Write>, j: nat)
    requires j < |a| + |b| + |c| + |d|
    ensures |a + b + c + d| == |a| + |b| + |c| + |d|
    ensures (a + b + c + d)[j] ==
      if j < |a| then a[j]
      else if j < |a| + |b| then b[j - |a|]
      else if j < |a| + |b| + |c| then c[j - |a| - |b|]
      else d[j - |a| - |b| - |c|]
  {
  }

  /** Which part of the cycle's run position j belongs to, and what is written there. */
  lemma CycleWriteAt(c: Config, ds: seq<Draws>, j: nat)
    requires |ds| == DeviceCount(c) && j < |CycleWrites(c, ds)|
    ensures var ws, b := CycleWrites(c, ds), 2 + 29 * |ds|;
      && |ws| == b + 10
      && (j < 2 ==> ws[j] == HeaderWrites(c)[j])
      && (2 <= j < b ==> ws[j] == DeviceWrite(c, (j - 2) / 29, ds[(j - 2) / 29], DeviceMetric((j - 2) % 29)))
      && (b <= j < b + 5 ==> ws[j] == IllegalWrites(c, 0)[j - b])
      && (b + 5 <= j ==> ws[j] == IllegalWrites(c, 14)[j - b - 5])
  {
    CycleLength(c, ds);
    CycleParts(c, ds, j);
    if 2 <= j < 2 + 29 * |ds| {
      var dw := DevicesWrites(c, ds, |ds|);
      DevicesWriteAt(c, ds, |ds|, j - 2);
      assert CycleWrites(c, ds)[j] == dw[j - 2];
    }
  }

  /** Position j of the cycle's run, read from the part it falls in. */
  lemma CycleLength(c: Config, ds: seq<Draws>)
    requires |ds| == DeviceCount(c)
    ensures |CycleWrites(c, ds)| == 2 + 29 * |ds| + 10
  {
    DevicesWritesLength(c, ds, |ds|);
  }

  lemma CycleParts(c: Config, ds: seq<Draws>, j: nat)
    requires |ds| == DeviceCount(c) && j < 2 + 29 * |ds| + 10
    ensures var ws, h, dw := CycleWrites(c, ds), HeaderWrites(c), DevicesWrites(c, ds, |ds|);
      && |h| == 2 && |dw| == 29 * |ds| && |ws| == 2 + 29 * |ds| + 10
      && ws[j] ==
        if j < 2 then h[j]
        else if j < 2 + |dw| then dw[j - 2]
        else if j < 2 + |dw| + 5 then IllegalWrites(c, 0)[j - 2 - |dw|]
        else IllegalWrites(c, 14)[j - 2 - |dw| - 5]
  {
    var h, dw, i0, i14 := HeaderWrites(c), DevicesWrites(c, ds, |ds|), IllegalWrites(c, 0), IllegalWrites(c, 14);
    DevicesWritesLength(c, ds, |ds|);
    assert |h| == 2 && CycleWrites(c, ds) == h + dw + i0 + i14;
    Concat4At(h, dw, i0, i14, j);
  }


  /** A cycle gives its counters nothing but Add(0). */
  lemma CycleCounterDeltasZero(c: Config, ds: seq<Draws>)
    requires |ds| == DeviceCount(c)
    ensures CounterDeltasZero(CycleWrites(c, ds))
  {
    var ws := CycleWrites(c, ds);
    forall j | 0 <= j < |ws| && KindOf(ws[j].key.metric) == Counter
      ensures ws[j].Add? && ws[j].delta == 0.0
    {
      CycleWriteAt(c, ds, j);
    }
  }

  /** The store after a run of UpdateMetrics calls from s, one list of draws per call. */
  function AfterCycles(s: Store, c: Config, runs: seq<seq<Draws>>): Store
    requires forall n :: 0 <= n < |runs| ==> |runs[n]| == DeviceCount(c)
  {
    if runs == [] then s else AfterCycle(AfterCycles(s, c, runs[..|runs| - 1]), c, runs[|runs| - 1])
  }

  /** However many cycles run, every counter series of the exporter reads zero. */
  lemma {:induction false} CountersStayZero(c: Config, runs: seq<seq<Draws>>)
    requires forall n :: 0 <= n < |runs| ==> |runs[n]| == DeviceCount(c)
    ensures CountersZero(AfterCycles(map[], c, runs))
  {
    if runs != [] {
      var init := runs[..|runs| - 1];
      CountersStayZero(c, init);
      CycleCounterDeltasZero(c, runs[|runs| - 1]);
      ZeroDeltasKeepCountersZero(AfterCycles(map[], c, init), CycleWrites(c, runs[|runs| - 1]));
    }
  }

  /** A device with a canned identifier writes the same series whatever its draws. */
  lemma CannedDeviceKeys(c: Config, i: nat, d1: Draws, d2: Draws, m: Metric)
    requires i < CannedCount
    ensures DeviceWrite(c, i, d1, m).key == DeviceWrite(c, i, d2, m).key
  {
    CannedIgnoresFill(i, d1.uuidFill, d2.uuidFill);
    DeviceWriteEffect(c, i, d1, m, 0.0);
    DeviceWriteEffect(c, i, d2, m, 0.0);
  }

  /** With at most sixteen devices every cycle writes the same set of series. */
  lemma CycleKeysStable(c: Config, ds1: seq<Draws>, ds2: seq<Draws>)
    requires |ds1| == |ds2| == DeviceCount(c) <= CannedCount
    ensures KeysOf(CycleWrites(c, ds1)) == KeysOf(CycleWrites(c, ds2))
  {
    var ws1, ws2 := CycleWrites(c, ds1), CycleWrites(c, ds2);
    CycleLayout(c, ds1);
    CycleLayout(c, ds2);
    forall j | 0 <= j < |ws1|
      ensures ws1[j].key == ws2[j].key
    {
      CycleWriteAt(c, ds1, j);
      CycleWriteAt(c, ds2, j);
      if 2 <= j < 2 + 29 * |ds1| {
        var i := (j - 2) / 29;
        CannedDeviceKeys(c, i, ds1[i], ds2[i], DeviceMetric((j - 2) % 29));
      }
    }
    SameKeys(ws1, ws2);
  }

  /** Series are never removed: a cycle keeps every series the store had. */
  lemma CycleKeepsSeries(s: Store, c: Config, ds: seq<Draws>)
    requires |ds| == DeviceCount(c)
    ensures AfterCycle(s, c, ds).Keys == s.Keys + KeysOf(CycleWrites(c, ds))
  {
    ApplyAllKeys(s, CycleWrites(c, ds));
  }

  /** With at most sixteen devices a second cycle adds no series to the first one's. */
  lemma SteadyStateAddsNoSeries(s: Store, c: Config, ds1: seq<Draws>, ds2: seq<Draws>)
    requires |ds1| == |ds2| == DeviceCount(c) <= CannedCount
    ensures AfterCycle(AfterCycle(s, c, ds1), c, ds2).Keys == AfterCycle(s, c, ds1).Keys
  {
    CycleKeepsSeries(s, c, ds1);
    CycleKeepsSeries(AfterCycle(s, c, ds1), c, ds2);
    CycleKeysStable(c, ds1, ds2);
  }

  /** Equal device series name the same device and carry the same identifier. */
  lemma DeviceKeyDetermines(c: Config, i1: nat, d1: Draws, m1: Metric, i2: nat, d2: Draws, m2: Metric)
    requires DeviceKey(c, i1, d1, m1) == DeviceKey(c, i2, d2, m2)
    ensures i1 == i2 && GenerateUUID(i1, d1.uuidFill) == GenerateUUID(i2, d2.uuidFill)
  {
    DeviceKeyGpu(c, i1, d1, m1);
    DeviceKeyGpu(c, i2, d2, m2);
    GpuLabelInjective(i1, i2);
  }

  /** What kind of series position j of a cycle's run writes: a header, a device, or an illegal-process series. */
  lemma CycleKeyOrigin(c: Config, ds: seq<Draws>, j: nat)
    requires |ds| == DeviceCount(c) && j < |CycleWrites(c, ds)|
    ensures var k, b := CycleWrites(c, ds)[j].key, 2 + 29 * |ds|;
      && (j < 2 ==> SchemaOf(k.metric) == NoLabels)
      && (2 <= j < b ==> (SchemaOf(k.metric) == Device || SchemaOf(k.metric) == CustomDevice)
                         && k == DeviceKey(c, (j - 2) / 29, ds[(j - 2) / 29], k.metric))
      && (b <= j ==> SchemaOf(k.metric) == IllegalProcess && LabelGpu in k.labels
                     && (k.labels[LabelGpu] == GpuLabel(0) || k.labels[LabelGpu] == GpuLabel(14)))
  {
    var b := 2 + 29 * |ds|;
    CycleWriteAt(c, ds, j);
    if j < 2 {
      HeaderWritesSound(c);
    } else if j < b {
      DeviceMetricSchemas(DeviceMetric((j - 2) % 29));
    } else {
      IllegalWritesSound(c, 0);
      IllegalWritesSound(c, 14);
    }
  }

  /**
   * Beyond the canned table a device's series depend on its draws: a cycle
   * writes none of the series the device would have under other draws.
   */
  lemma FreshIdentityNotWritten(c: Config, ds: seq<Draws>, i: nat, d: Draws)
    requires |ds| == DeviceCount(c) && CannedCount <= i < |ds|
    requires ValidFill(ds[i].uuidFill) && ValidFill(d.uuidFill) && ds[i].uuidFill != d.uuidFill
    ensures forall m, j :: DevicePosition(m) >= 0 && 0 <= j < |CycleWrites(c, ds)| ==>
      CycleWrites(c, ds)[j].key != DeviceKey(c, i, d, m)
  {
    forall m, j | DevicePosition(m) >= 0 && 0 <= j < |CycleWrites(c, ds)|
      ensures CycleWrites(c, ds)[j].key != DeviceKey(c, i, d, m)
    {
      FreshKeyNotAt(c, ds, i, d, m, j);
    }
  }

  lemma FreshKeyNotAt(c: Config, ds: seq<Draws>, i: nat, d: Draws, m: Metric, j: nat)
    requires |ds| == DeviceCount(c) && CannedCount <= i < |ds| && DevicePosition(m) >= 0
    requires ValidFill(ds[i].uuidFill) && ValidFill(d.uuidFill) && ds[i].uuidFill != d.uuidFill
    requires j < |CycleWrites(c, ds)|
    ensures CycleWrites(c, ds)[j].key != DeviceKey(c, i, d, m)
  {
    var k := CycleWrites(c, ds)[j].key;
    DeviceMetricSchemas(m);
    assert DeviceKey(c, i, d, m).metric == m;
    CycleKeyOrigin(c, ds, j);
    if 2 <= j < 2 + 29 * |ds| {
      FreshKeyNotOf(c, ds, i, d, (j - 2) / 29, k.metric, m);
    }
  }

  lemma FreshKeyNotOf(c: Config, ds: seq<Draws>, i: nat, d: Draws, i': nat, m': Metric, m: Metric)
    requires CannedCount <= i < |ds| && i' < |ds|
    requires ValidFill(ds[i].uuidFill) && ValidFill(d.uuidFill) && ds[i].uuidFill != d.uuidFill
    ensures DeviceKey(c, i', ds[i'], m') != DeviceKey(c, i, d, m)
  {
    if DeviceKey(c, i', ds[i'], m') == DeviceKey(c, i, d, m) {
      DeviceKeyDetermines(c, i', ds[i'], m', i, d, m);
      RandomUuidInjective(i, ds[i].uuidFill, d.uuidFill);
    }
  }

  /**
   * A device beyond the canned table draws a new identifier each cycle, so when its draws
   * differ a second cycle adds series to those of the first (with more than sixteen devices
   * the series grow without bound).
   */
  lemma RandomIdentitiesAddSeries(c: Config, ds1: seq<Draws>, ds2: seq<Draws>, i: nat)
    requires |ds1| == |ds2| == DeviceCount(c) && CannedCount <= i < |ds1|
    requires ValidFill(ds1[i].uuidFill) && ValidFill(ds2[i].uuidFill) && ds1[i].uuidFill != ds2[i].uuidFill
    ensures AfterCycle(map[], c, ds1).Keys < AfterCycle(AfterCycle(map[], c, ds1), c, ds2).Keys
  {
    FreshIdentityNotWritten(c, ds1, i, ds2[i]);
    var j := CycleDeviceIndex(c, ds2, i, DevFbUsed);
    DeviceWriteEffect(c, i, ds2[i], DevFbUsed, 0.0);
    NewKeyGrowsAt(map[], CycleWrites(c, ds1), CycleWrites(c, ds2), DeviceKey(c, i, ds2[i], DevFbUsed), j);
  }

  /** Every illegal-process series the store holds belongs to gpu "0" or gpu "14". */
  predicate IllegalOnlyOnBusyGpus(s: Store)
  {
    forall k | k in s && SchemaOf(k.metric) == IllegalProcess ::
      LabelGpu in k.labels && (k.labels[LabelGpu] == "0" || k.labels[LabelGpu] == "14")
  }

  /** A cycle writes illegal-process series for gpus 0 and 14 only, whatever the device count. */
  lemma CycleKeepsIllegalOnBusyGpus(s: Store, c: Config, ds: seq<Draws>)
    requires |ds| == DeviceCount(c) && IllegalOnlyOnBusyGpus(s)
    ensures IllegalOnlyOnBusyGpus(AfterCycle(s, c, ds))
  {
    var ws := CycleWrites(c, ds);
    CycleKeepsSeries(s, c, ds);
    BusyGpuLabels();
    forall j | 0 <= j < |ws| && SchemaOf(ws[j].key.metric) == IllegalProcess
      ensures LabelGpu in ws[j].key.labels
      ensures ws[j].key.labels[LabelGpu] == "0" || ws[j].key.labels[LabelGpu] == "14"
    {
      CycleKeyOrigin(c, ds, j);
    }
  }
}
