/**
 * The fixed catalog of metric vectors that NewPPUExporter builds
 * (main.go:77-235) and Register hands to the registry (main.go:237-276).
 * Each vector is named by a constructor of Metric; its name, help text,
 * kind and label schema are functions of that constructor.
 */
module Catalog {

  /** Gauges are set to a value; counters only ever have a delta added. */
  datatype Kind = Gauge | Counter

  /**
   * The label schema a vector is declared with. Device, CustomDevice and
   * IllegalProcess are the three label lists of main.go:78-80; NoLabels is the
   * schema of the two plain gauges built with prometheus.NewGauge.
   */
  datatype Schema = NoLabels | Device | CustomDevice | IllegalProcess

  /** What the registry is told about a vector. */
  datatype Descriptor = Descriptor(name: string, help: string, kind: Kind, schema: Schema)

  /**
   * The label names the source declares, one constructor per name: each is
   * the name after "Label" ("UUID" for LabelUuid, "SupportDCGM" for
   * LabelSupportDcgm, "device", "gpu" and "modelName" in lower case).
   */
  datatype Label =
    LabelAllocateMode | LabelContainerName | LabelDriverVersion | LabelHostname | LabelNamespaceName
    | LabelNodeName | LabelNodePoolId | LabelPodName | LabelPodSource | LabelProcessId
    | LabelProcessName | LabelProcessType | LabelSupportDcgm | LabelUuid | LabelDevice | LabelGpu
    | LabelModelName

  /** The declared label names, in the order the source lists them. */
  function SchemaLabels(s: Schema): (names: seq<Label>)
    ensures forall i, j :: 0 <= i < j < |names| ==> names[i] != names[j]
  {
    match s
    case NoLabels => []
    case Device =>
      [LabelHostname, LabelNodeName, LabelNodePoolId, LabelPodSource, LabelUuid, LabelDevice, LabelGpu, LabelModelName]
    case CustomDevice =>
      [LabelDriverVersion, LabelNodeName, LabelNodePoolId, LabelPodSource, LabelSupportDcgm, LabelUuid,
       LabelDevice, LabelGpu, LabelModelName]
    case IllegalProcess =>
      [LabelAllocateMode, LabelContainerName, LabelNamespaceName, LabelNodeName, LabelNodePoolId, LabelPodName,
       LabelPodSource, LabelProcessId, LabelProcessName, LabelProcessType, LabelUuid, LabelDevice, LabelGpu,
       LabelModelName]
  }

  /** The label names of a schema as a set: the key set every label map must have. */
  function SchemaKeys(s: Schema): set<Label>
  {
    set i | 0 <= i < |SchemaLabels(s)| :: SchemaLabels(s)[i]
  }

  /** The 36 vectors of the exporter, in the order Register passes them to MustRegister. */
  datatype Metric =
    AllocateMode | DevFbAllocated | DevFbTotal | IllegalDecodeUtil | IllegalEncodeUtil
    | IllegalMemCopyUtil | IllegalMemUsed | IllegalSmUtil | DevAppMemClock | DevAppSmClock
    | DevBar1Total | DevBar1Used | DevClockThrottleReasons | DevCount | DevDecUtil | DevEncUtil
    | DevFbFree | DevFbUsed | DevGpuTemp | DevGpuUtil | DevMemoryTemp | DevMemClock | DevMemCopyUtil
    | DevNvlinkBandwidthTotal | DevPowerUsage | DevRetiredDbe | DevRetiredPending | DevRetiredSbe
    | DevSmClock | DevVideoClock | DevXidErrors | ProfDramActive | ProfNvlinkRxBytes
    | ProfNvlinkTxBytes | ProfPcieRxBytes | ProfPcieTxBytes

  /** The position of a vector in the registration order. */
  function Index(m: Metric): (i: nat)
    ensures i < 36
  {
    match m
    case AllocateMode => 0
    case DevFbAllocated => 1
    case DevFbTotal => 2
    case IllegalDecodeUtil => 3
    case IllegalEncodeUtil => 4
    case IllegalMemCopyUtil => 5
    case IllegalMemUsed => 6
    case IllegalSmUtil => 7
    case DevAppMemClock => 8
    case DevAppSmClock => 9
    case DevBar1Total => 10
    case DevBar1Used => 11
    case DevClockThrottleReasons => 12
    case DevCount => 13
    case DevDecUtil => 14
    case DevEncUtil => 15
    case DevFbFree => 16
    case DevFbUsed => 17
    case DevGpuTemp => 18
    case DevGpuUtil => 19
    case DevMemoryTemp => 20
    case DevMemClock => 21
    case DevMemCopyUtil => 22
    case DevNvlinkBandwidthTotal => 23
    case DevPowerUsage => 24
    case DevRetiredDbe => 25
    case DevRetiredPending => 26
    case DevRetiredSbe => 27
    case DevSmClock => 28
    case DevVideoClock => 29
    case DevXidErrors => 30
    case ProfDramActive => 31
    case ProfNvlinkRxBytes => 32
    case ProfNvlinkTxBytes => 33
    case ProfPcieRxBytes => 34
    case ProfPcieTxBytes => 35
  }

  /** The vector at a position of the registration order: the inverse of Index. */
  function MetricAt(i: nat): (m: Metric)
    requires i < 36
    ensures Index(m) == i
  {
    if i < 9 then MetricAt0(i)
    else if i < 18 then MetricAt9(i)
    else if i < 27 then MetricAt18(i)
    else MetricAt27(i)
  }

  function MetricAt0(i: nat): (m: Metric)
    requires 0 <= i < 9
    ensures Index(m) == i
  {
    if i == 0 then AllocateMode
    else if i == 1 then DevFbAllocated
    else if i == 2 then DevFbTotal
    else if i == 3 then IllegalDecodeUtil
    else if i == 4 then IllegalEncodeUtil
    else if i == 5 then IllegalMemCopyUtil
    else if i == 6 then IllegalMemUsed
    else if i == 7 then IllegalSmUtil
    else DevAppMemClock
  }

  function MetricAt9(i: nat): (m: Metric)
    requires 9 <= i < 18
    ensures Index(m) == i
  {
    if i == 9 then DevAppSmClock
    else if i == 10 then DevBar1Total
    else if i == 11 then DevBar1Used
    else if i == 12 then DevClockThrottleReasons
    else if i == 13 then DevCount
    else if i == 14 then DevDecUtil
    else if i == 15 then DevEncUtil
    else if i == 16 then DevFbFree
    else DevFbUsed
  }

  function MetricAt18(i: nat): (m: Metric)
    requires 18 <= i < 27
    ensures Index(m) == i
  {
    if i == 18 then DevGpuTemp
    else if i == 19 then DevGpuUtil
    else if i == 20 then DevMemoryTemp
    else if i == 21 then DevMemClock
    else if i == 22 then DevMemCopyUtil
    else if i == 23 then DevNvlinkBandwidthTotal
    else if i == 24 then DevPowerUsage
    else if i == 25 then DevRetiredDbe
    else DevRetiredPending
  }

  function MetricAt27(i: nat): (m: Metric)
    requires 27 <= i < 36
    ensures Index(m) == i
  {
    if i == 27 then DevRetiredSbe
    else if i == 28 then DevSmClock
    else if i == 29 then DevVideoClock
    else if i == 30 then DevXidErrors
    else if i == 31 then ProfDramActive
    else if i == 32 then ProfNvlinkRxBytes
    else if i == 33 then ProfNvlinkTxBytes
    else if i == 34 then ProfPcieRxBytes
    else ProfPcieTxBytes
  }

  /** Every vector, in registration order. */
  function Metrics(): (ms: seq<Metric>)
    ensures |ms| == 36 && forall i :: 0 <= i < 36 ==> ms[i] == MetricAt(i)
  {
    seq(36, i requires 0 <= i < 36 => MetricAt(i))
  }

  /** The name the vector is registered under. */
  function Name(m: Metric): string
  {
    match m
    case AllocateMode => "DCGM_CUSTOM_ALLOCATE_MODE"
    case DevFbAllocated => "DCGM_CUSTOM_DEV_FB_ALLOCATED"
    case DevFbTotal => "DCGM_CUSTOM_DEV_FB_TOTAL"
    case IllegalDecodeUtil => "DCGM_CUSTOM_ILLEGAL_PROCESS_DECODE_UTIL"
    case IllegalEncodeUtil => "DCGM_CUSTOM_ILLEGAL_PROCESS_ENCODE_UTIL"
    case IllegalMemCopyUtil => "DCGM_CUSTOM_ILLEGAL_PROCESS_MEM_COPY_UTIL"
    case IllegalMemUsed => "DCGM_CUSTOM_ILLEGAL_PROCESS_MEM_USED"
    case IllegalSmUtil => "DCGM_CUSTOM_ILLEGAL_PROCESS_SM_UTIL"
    case DevAppMemClock => "DCGM_FI_DEV_APP_MEM_CLOCK"
    case DevAppSmClock => "DCGM_FI_DEV_APP_SM_CLOCK"
    case DevBar1Total => "DCGM_FI_DEV_BAR1_TOTAL"
    case DevBar1Used => "DCGM_FI_DEV_BAR1_USED"
    case DevClockThrottleReasons => "DCGM_FI_DEV_CLOCK_THROTTLE_REASONS"
    case DevCount => "DCGM_FI_DEV_COUNT"
    case DevDecUtil => "DCGM_FI_DEV_DEC_UTIL"
    case DevEncUtil => "DCGM_FI_DEV_ENC_UTIL"
    case DevFbFree => "DCGM_FI_DEV_FB_FREE"
    case DevFbUsed => "DCGM_FI_DEV_FB_USED"
    case DevGpuTemp => "DCGM_FI_DEV_GPU_TEMP"
    case DevGpuUtil => "DCGM_FI_DEV_GPU_UTIL"
    case DevMemoryTemp => "DCGM_FI_DEV_MEMORY_TEMP"
    case DevMemClock => "DCGM_FI_DEV_MEM_CLOCK"
    case DevMemCopyUtil => "DCGM_FI_DEV_MEM_COPY_UTIL"
    case DevNvlinkBandwidthTotal => "DCGM_FI_DEV_NVLINK_BANDWIDTH_TOTAL"
    case DevPowerUsage => "DCGM_FI_DEV_POWER_USAGE"
    case DevRetiredDbe => "DCGM_FI_DEV_RETIRED_DBE"
    case DevRetiredPending => "DCGM_FI_DEV_RETIRED_PENDING"
    case DevRetiredSbe => "DCGM_FI_DEV_RETIRED_SBE"
    case DevSmClock => "DCGM_FI_DEV_SM_CLOCK"
    case DevVideoClock => "DCGM_FI_DEV_VIDEO_CLOCK"
    case DevXidErrors => "DCGM_FI_DEV_XID_ERRORS"
    case ProfDramActive => "DCGM_FI_PROF_DRAM_ACTIVE"
    case ProfNvlinkRxBytes => "DCGM_FI_PROF_NVLINK_RX_BYTES"
    case ProfNvlinkTxBytes => "DCGM_FI_PROF_NVLINK_TX_BYTES"
    case ProfPcieRxBytes => "DCGM_FI_PROF_PCIE_RX_BYTES"
    case ProfPcieTxBytes => "DCGM_FI_PROF_PCIE_TX_BYTES"
  }

  function Help(m: Metric): string
  {
    match m
    case AllocateMode =>
      "GPU allocate mode of node,value in [None:0,Exclusive:1,Share:2]"
    case DevFbAllocated =>
      "Allocated framebuffer memory ratio(0~1) of device,it is a custom metric created by ack"
    case DevFbTotal =>
      "Total framebuffer memory of device(in MiB),it is a custom metric created by ack"
    case IllegalDecodeUtil =>
      "Decode utilization of illegal gpu process(container request gpus with NVIDIA_VISIBLE_DEVICES=all),it is a custom metric defined by ACK"
    case IllegalEncodeUtil =>
      "Encode utilization of illegal gpu process(container request gpus with NVIDIA_VISIBLE_DEVICES=all),it is a custom metric defined by ACK"
    case IllegalMemCopyUtil =>
      "Memory copy utilization of illegal gpu process(container request gpus with NVIDIA_VISIBLE_DEVICES=all),it is a custom metric defined by ACK"
    case IllegalMemUsed =>
      "Used memory(in MiB) of illegal gpu process(container request gpus with NVIDIA_VISIBLE_DEVICES=all),it is a custom metric defined by ACK"
    case IllegalSmUtil =>
      "SM utilization of illegal gpu process(container request gpus with NVIDIA_VISIBLE_DEVICES=all),it is a custom metric defined by ACK"
    case DevAppMemClock =>
      "Memory Application clocks(in MHz)."
    case DevAppSmClock =>
      "SM Application clocks (in MHz)."
    case DevBar1Total =>
      "Total BAR1 of the GPU in MB"
    case DevBar1Used =>
      "Used BAR1 of the GPU in MB"
    case DevClockThrottleReasons =>
      "A bitmap of why the clock is throttled."
    case DevCount =>
      "total devices on the node."
    case DevDecUtil =>
      "Decoder utilization (in %)."
    case DevEncUtil =>
      "Encoder utilization (in %)."
    case DevFbFree =>
      "Framebuffer memory free (in MiB)."
    case DevFbUsed =>
      "Framebuffer memory used (in MiB)."
    case DevGpuTemp =>
      "GPU temperature (in C)."
    case DevGpuUtil =>
      "GPU utilization (in %)."
    case DevMemoryTemp =>
      "Memory temperature (in C)."
    case DevMemClock =>
      "Memory clock frequency (in MHz)."
    case DevMemCopyUtil =>
      "Memory utilization (in %)."
    case DevNvlinkBandwidthTotal =>
      "Total number of NVLink bandwidth counters for all lanes."
    case DevPowerUsage =>
      "Power draw (in W)."
    case DevRetiredDbe =>
      "Total number of retired pages due to double-bit errors."
    case DevRetiredPending =>
      "Total number of pages pending retirement."
    case DevRetiredSbe =>
      "Total number of retired pages due to single-bit errors."
    case DevSmClock =>
      "SM clock frequency (in MHz)."
    case DevVideoClock =>
      "Video encoder/decoder clock for the device."
    case DevXidErrors =>
      "Value of the last XID error encountered."
    case ProfDramActive =>
      "Ratio of cycles the device memory interface is active sending or receiving data (in %)."
    case ProfNvlinkRxBytes =>
      "The number of bytes of active NvLink rx (receive) data including both header and payload."
    case ProfNvlinkTxBytes =>
      "The number of bytes of active NvLink tx (transmit) data including both header and payload."
    case ProfPcieRxBytes =>
      "The rate of data received over the PCIe bus - including both protocol headers and data payloads - in bytes per second."
    case ProfPcieTxBytes =>
      "The rate of data transmitted over the PCIe bus - including both protocol headers and data payloads - in bytes per second."
  }

  /** The six counters are the NVLink bandwidth, page retirement and NVLink byte vectors. */
  function KindOf(m: Metric): Kind
  {
    match m
    case DevNvlinkBandwidthTotal | DevRetiredDbe | DevRetiredPending | DevRetiredSbe
      | ProfNvlinkRxBytes | ProfNvlinkTxBytes => Counter
    case _ => Gauge
  }

  function SchemaOf(m: Metric): Schema
  {
    match m
    case AllocateMode | DevCount => NoLabels
    case DevFbAllocated | DevFbTotal => CustomDevice
    case IllegalDecodeUtil | IllegalEncodeUtil | IllegalMemCopyUtil | IllegalMemUsed | IllegalSmUtil => IllegalProcess
    case _ => Device
  }
  function Describe(m: Metric): Descriptor
  {
    Descriptor(Name(m), Help(m), KindOf(m), SchemaOf(m))
  }

  /** The registration order lists every vector exactly once, each at its own index. */
  lemma MetricsIndexed()
    ensures |Metrics()| == 36
    ensures forall i :: 0 <= i < 36 ==> Index(Metrics()[i]) == i
    ensures forall m :: Metrics()[Index(m)] == m
  {
    forall m
      ensures Metrics()[Index(m)] == m
    {
      IndexInverse(m);
    }
  }

  lemma IndexInverse(m: Metric)
    ensures MetricAt(Index(m)) == m
  {
    match m
    case AllocateMode =>
    case DevFbAllocated =>
    case DevFbTotal =>
    case IllegalDecodeUtil =>
    case IllegalEncodeUtil =>
    case IllegalMemCopyUtil =>
    case IllegalMemUsed =>
    case IllegalSmUtil =>
    case DevAppMemClock =>
    case DevAppSmClock =>
    case DevBar1Total =>
    case DevBar1Used =>
    case DevClockThrottleReasons =>
    case DevCount =>
    case DevDecUtil =>
    case DevEncUtil =>
    case DevFbFree =>
    case DevFbUsed =>
    case DevGpuTemp =>
    case DevGpuUtil =>
    case DevMemoryTemp =>
    case DevMemClock =>
    case DevMemCopyUtil =>
    case DevNvlinkBandwidthTotal =>
    case DevPowerUsage =>
    case DevRetiredDbe =>
    case DevRetiredPending =>
    case DevRetiredSbe =>
    case DevSmClock =>
    case DevVideoClock =>
    case DevXidErrors =>
    case ProfDramActive =>
    case ProfNvlinkRxBytes =>
    case ProfNvlinkTxBytes =>
    case ProfPcieRxBytes =>
    case ProfPcieTxBytes =>
  }

  /** No two vectors share a name, so the registry can key them by name. */
  lemma NameInjective(m1: Metric, m2: Metric)
    ensures Name(m1) == Name(m2) ==> m1 == m2
  {
    if Index(m1) < Index(m2) {
      NameRow(m1);
    } else if Index(m2) < Index(m1) {
      NameRow(m2);
    } else {
      MetricsIndexed();
      assert m1 == Metrics()[Index(m1)];
    }
  }

  /** A vector's name differs from every name registered after it. */
  lemma NameRow(m: Metric)
    ensures forall m' :: Index(m) < Index(m') ==> Name(m) != Name(m')
  {
    if Index(m) < 6 {
      NameRows0(m);
    } else if Index(m) < 12 {
      NameRows1(m);
    } else if Index(m) < 18 {
      NameRows2(m);
    } else if Index(m) < 24 {
      NameRows3(m);
    } else if Index(m) < 30 {
      NameRows4(m);
    } else {
      NameRows5(m);
    }
  }

  lemma NameRows0(m: Metric)
    requires 0 <= Index(m) < 6
    ensures forall m' :: Index(m) < Index(m') ==> Name(m) != Name(m')
  {
    match m
    case AllocateMode =>
    case DevFbAllocated =>
    case DevFbTotal =>
    case IllegalDecodeUtil =>
    case IllegalEncodeUtil =>
    case IllegalMemCopyUtil =>
    case _ => assert false;
  }

  lemma NameRows1(m: Metric)
    requires 6 <= Index(m) < 12
    ensures forall m' :: Index(m) < Index(m') ==> Name(m) != Name(m')
  {
    match m
    case IllegalMemUsed =>
    case IllegalSmUtil =>
    case DevAppMemClock =>
    case DevAppSmClock =>
    case DevBar1Total =>
    case DevBar1Used =>
    case _ => assert false;
  }

  lemma NameRows2(m: Metric)
    requires 12 <= Index(m) < 18
    ensures forall m' :: Index(m) < Index(m') ==> Name(m) != Name(m')
  {
    match m
    case DevClockThrottleReasons =>
    case DevCount =>
    case DevDecUtil =>
    case DevEncUtil =>
    case DevFbFree =>
    case DevFbUsed =>
    case _ => assert false;
  }

  lemma NameRows3(m: Metric)
    requires 18 <= Index(m) < 24
    ensures forall m' :: Index(m) < Index(m') ==> Name(m) != Name(m')
  {
    match m
    case DevGpuTemp =>
    case DevGpuUtil =>
    case DevMemoryTemp =>
    case DevMemClock =>
    case DevMemCopyUtil =>
    case DevNvlinkBandwidthTotal =>
    case _ => assert false;
  }

  lemma NameRows4(m: Metric)
    requires 24 <= Index(m) < 30
    ensures forall m' :: Index(m) < Index(m') ==> Name(m) != Name(m')
  {
    match m
    case DevPowerUsage =>
    case DevRetiredDbe =>
    case DevRetiredPending =>
    case DevRetiredSbe =>
    case DevSmClock =>
    case DevVideoClock =>
    case _ => assert false;
  }

  lemma NameRows5(m: Metric)
    requires 30 <= Index(m) < 36
    ensures forall m' :: Index(m) < Index(m') ==> Name(m) != Name(m')
  {
    match m
    case DevXidErrors =>
    case ProfDramActive =>
    case ProfNvlinkRxBytes =>
    case ProfNvlinkTxBytes =>
    case ProfPcieRxBytes =>
    case ProfPcieTxBytes =>
    case _ => assert false;
  }

  /**
   * The collectors of one exporter, in the order Register passes them to
   * MustRegister: 36 vectors with pairwise distinct names.
   */
  function Collectors(): (ds: seq<Descriptor>)
    ensures |ds| == 36
    ensures forall i :: 0 <= i < 36 ==> ds[i] == Describe(Metrics()[i])
    ensures forall i, j :: 0 <= i < j < |ds| ==> ds[i].name != ds[j].name
  {
    MetricsIndexed();
    forall i, j | 0 <= i < j < 36
      ensures Name(Metrics()[i]) != Name(Metrics()[j])
    {
      NameInjective(Metrics()[i], Metrics()[j]);
    }
    seq(36, i requires 0 <= i < 36 => Describe(Metrics()[i]))
  }
}
