/**
 * The exporter object (main.go:32-80, 237-443): its configuration, the 36
 * vectors it registers, and the series store its UpdateMetrics writes into.
 * Every method that writes states its new store as the old one after the
 * writes the source performs, in the source's order.
 */
module Exporter {
  import opened Wrappers
  import opened Catalog
  import opened Samples
  import opened Series
  import opened Cycle
  import opened Registration

  /** A fresh registry accepts the exporter's collectors. */
  lemma CatalogRegisters()
    ensures RegisterAll(map[], Collectors()).duplicate == None
  {
    RegisterAllSucceeds(map[], Collectors());
  }

  /** After registration every vector is registered under its name, with its descriptor. */
  lemma CatalogRegistersAll(m: Metric)
    ensures Name(m) in RegisterAll(map[], Collectors()).collectors
    ensures RegisterAll(map[], Collectors()).collectors[Name(m)] == Describe(m)
  {
    var cs, i := Collectors(), Index(m);
    CatalogRegisters();
    RegisteredAt(map[], cs, i);
    MetricsIndexed();
    assert cs[i] == Describe(Metrics()[i]);
  }

  /** A registered name is the name of one of the vectors. */
  lemma CatalogRegistersOnly(k: string)
    requires k in RegisterAll(map[], Collectors()).collectors
    ensures exists m: Metric :: Name(m) == k
  {
    var cs := Collectors();
    CatalogRegisters();
    RegisterAllContents(map[], cs);
    var i :| 0 <= i < |cs| && cs[i].name == k;
    assert Name(Metrics()[i]) == k;
  }

  /** Registering the exporter a second time with the same registry fails, at DCGM_CUSTOM_ALLOCATE_MODE. */
  lemma CatalogRegisterTwiceFails()
    ensures RegisterAll(RegisterAll(map[], Collectors()).collectors, Collectors()).duplicate
        == Some("DCGM_CUSTOM_ALLOCATE_MODE")
  {
    CatalogRegisters();
    RegisterTwiceFails(map[], Collectors());
    assert Metrics()[0] == AllocateMode;
  }

  class PpuExporter {
    const config: Config
    /** The 36 vectors, in the order Register passes them on. */
    const collectors: seq<Descriptor>
    /** The series of the registry the exporter writes to. */
    var series: Store

    /** NewPPUExporter: the catalog of vectors, and no series yet. */
    constructor(config: Config)
      ensures this.config == config && collectors == Collectors() && series == map[]
    {
      this.config := config;
      collectors := Collectors();
      series := map[];
    }

    /** Register: hand the 36 vectors to the registry's MustRegister. */
    method Register(registry: Registry) returns (duplicate: Option<string>)
      modifies registry
      ensures Outcome(registry.collectors, duplicate) == RegisterAll(old(registry.collectors), collectors)
    {
      duplicate := registry.MustRegister(collectors);
    }

    /**
     * One With(labels).Set(v) or With(labels).Add(d): the library's checks
     * first, then the series is created at zero if new and updated.
     */
    method Emit(w: Write) returns (err: Option<WriteError>)
      modifies this
      ensures err == Rejection(w)
      ensures series == if err == None then Apply(old(series), w) else old(series)
    {
      err := Rejection(w);
      if err == None {
        var k := w.key;
        var prev := if k in series then series[k] else 0.0;
        match w {
          case Set(_, v) => series := series[k := v];
          case Add(_, d) => series := series[k := prev + d];
        }
      }
    }

    /** Emit the k-th write of a run whose first k writes are already applied to s; the library accepts it. */
    method EmitNext(ghost s: Store, ws: seq<Write>, k: nat)
      requires k < |ws| && series == ApplyAll(s, ws[..k]) && Rejection(ws[k]) == None
      modifies this
      ensures series == ApplyAll(s, ws[..k + 1])
    {
      ApplyAllStep(s, ws, k);
      var err := Emit(ws[k]);
    }

    /** One iteration of the device loop (main.go:312-403): its 29 writes, in source order. */
    method UpdateDevice(i: nat, d: Draws)
      modifies this
      ensures series == ApplyAll(old(series), DeviceWrites(config, i, d))
    {
      var ws := DeviceWrites(config, i, d);
      DeviceWritesSound(config, i, d);
      forall k | 0 <= k < 29
        ensures Rejection(ws[k]) == None
      {
        RejectionIffUnlawful(ws[k]);
      }
      EmitDeviceBlock(ws);
    }

    /**
     * The 29 With(labels).Set/Add statements of the device loop's body, given
     * the writes they perform; the library accepts each of them.
     */
    method EmitDeviceBlock(ws: seq<Write>)
      requires |ws| == 29 && forall k :: 0 <= k < 29 ==> Rejection(ws[k]) == None
      modifies this
      ensures series == ApplyAll(old(series), ws)
    {
      ghost var s := series;
      assert ws[..0] == [];
      EmitNext(s, ws, 0);    // DCGM_CUSTOM_DEV_FB_ALLOCATED
      EmitNext(s, ws, 1);    // DCGM_CUSTOM_DEV_FB_TOTAL
      EmitNext(s, ws, 2);    // DCGM_FI_DEV_APP_MEM_CLOCK
      EmitNext(s, ws, 3);    // DCGM_FI_DEV_APP_SM_CLOCK
      EmitNext(s, ws, 4);    // DCGM_FI_DEV_BAR1_TOTAL
      EmitNext(s, ws, 5);    // DCGM_FI_DEV_BAR1_USED
      EmitNext(s, ws, 6);    // DCGM_FI_DEV_CLOCK_THROTTLE_REASONS
      EmitNext(s, ws, 7);    // DCGM_FI_DEV_DEC_UTIL
      EmitNext(s, ws, 8);    // DCGM_FI_DEV_ENC_UTIL
      EmitNext(s, ws, 9);    // DCGM_FI_DEV_GPU_UTIL
      EmitNext(s, ws, 10);   // DCGM_FI_DEV_FB_FREE
      EmitNext(s, ws, 11);   // DCGM_FI_DEV_FB_USED
      EmitNext(s, ws, 12);   // DCGM_FI_DEV_MEM_COPY_UTIL
      EmitNext(s, ws, 13);   // DCGM_FI_DEV_GPU_TEMP
      EmitNext(s, ws, 14);   // DCGM_FI_DEV_MEMORY_TEMP
      EmitNext(s, ws, 15);   // DCGM_FI_DEV_MEM_CLOCK
      EmitNext(s, ws, 16);   // DCGM_FI_DEV_SM_CLOCK
      EmitNext(s, ws, 17);   // DCGM_FI_DEV_VIDEO_CLOCK
      EmitNext(s, ws, 18);   // DCGM_FI_DEV_POWER_USAGE
      EmitNext(s, ws, 19);   // DCGM_FI_DEV_RETIRED_DBE
      EmitNext(s, ws, 20);   // DCGM_FI_DEV_RETIRED_PENDING
      EmitNext(s, ws, 21);   // DCGM_FI_DEV_RETIRED_SBE
      EmitNext(s, ws, 22);   // DCGM_FI_DEV_XID_ERRORS
      EmitNext(s, ws, 23);   // DCGM_FI_DEV_NVLINK_BANDWIDTH_TOTAL
      EmitNext(s, ws, 24);   // DCGM_FI_PROF_DRAM_ACTIVE
      EmitNext(s, ws, 25);   // DCGM_FI_PROF_NVLINK_RX_BYTES
      EmitNext(s, ws, 26);   // DCGM_FI_PROF_NVLINK_TX_BYTES
      EmitNext(s, ws, 27);   // DCGM_FI_PROF_PCIE_RX_BYTES
      EmitNext(s, ws, 28);   // DCGM_FI_PROF_PCIE_TX_BYTES
      ApplyAllWhole(s, ws);
    }

    /** One iteration of the illegal-process loop (main.go:408-441): its five writes, in source order. */
    method UpdateIllegal(g: nat)
      modifies this
      ensures series == ApplyAll(old(series), IllegalWrites(config, g))
    {
      var ws := IllegalWrites(config, g);
      IllegalWritesSound(config, g);
      forall k | 0 <= k < 5
        ensures Rejection(ws[k]) == None
      {
        RejectionIffUnlawful(ws[k]);
      }
      EmitIllegalBlock(ws);
    }

    /**
     * The five With(illegalLabels).Set statements of the illegal-process loop's
     * body, given the writes they perform; the library accepts each of them.
     */
    method EmitIllegalBlock(ws: seq<Write>)
      requires |ws| == 5 && forall k :: 0 <= k < 5 ==> Rejection(ws[k]) == None
      modifies this
      ensures series == ApplyAll(old(series), ws)
    {
      ghost var s := series;
      assert ws[..0] == [];
      EmitNext(s, ws, 0);    // DCGM_CUSTOM_ILLEGAL_PROCESS_DECODE_UTIL
      EmitNext(s, ws, 1);    // DCGM_CUSTOM_ILLEGAL_PROCESS_ENCODE_UTIL
      EmitNext(s, ws, 2);    // DCGM_CUSTOM_ILLEGAL_PROCESS_MEM_COPY_UTIL: 4 on gpu 14, else 0
      EmitNext(s, ws, 3);    // DCGM_CUSTOM_ILLEGAL_PROCESS_MEM_USED: 4454 on gpu 14, else 544
      EmitNext(s, ws, 4);    // DCGM_CUSTOM_ILLEGAL_PROCESS_SM_UTIL
      ApplyAllWhole(s, ws);
    }

    /** The two unlabelled gauges (main.go:305-309). */
    method UpdateHeader()
      modifies this
      ensures series == ApplyAll(old(series), HeaderWrites(config))
    {
      var ws := HeaderWrites(config);
      HeaderWritesSound(config);
      RejectionIffUnlawful(ws[0]);
      RejectionIffUnlawful(ws[1]);
      ghost var s := series;
      assert ws[..0] == [];
      EmitNext(s, ws, 0);    // DCGM_CUSTOM_ALLOCATE_MODE
      EmitNext(s, ws, 1);    // DCGM_FI_DEV_COUNT
      ApplyAllWhole(s, ws);
    }

    /** The device loop (main.go:311-404): one iteration per GPU, device i with draws ds[i]. */
    method UpdateDevices(ds: seq<Draws>)
      requires |ds| == DeviceCount(config)
      modifies this
      ensures series == ApplyAll(old(series), DevicesWrites(config, ds, |ds|))
    {
      ghost var s0 := series;
      var i := 0;
      while i < config.gpuCount
        invariant 0 <= i <= DeviceCount(config)
        invariant series == ApplyAll(s0, DevicesWrites(config, ds, i))
      {
        UpdateDevice(i, ds[i]);
        ApplyAllAppend(s0, DevicesWrites(config, ds, i), DeviceWrites(config, i, ds[i]));
        DevicesWritesStep(config, ds, i);
        i := i + 1;
      }
    }

    /** The illegal-process loop (main.go:406-442), over gpus 0 and 14 whatever GPUCount is. */
    method UpdateIllegals()
      modifies this
      ensures series == ApplyAll(old(series), IllegalRun(config))
    {
      ghost var s0 := series;
      var busy := [0, 14];
      var n := 0;
      while n < |busy|
        invariant 0 <= n <= 2
        invariant series == ApplyAll(s0, if n == 0 then [] else if n == 1 then IllegalWrites(config, 0) else IllegalRun(config))
      {
        ghost var done := if n == 0 then [] else IllegalWrites(config, 0);
        UpdateIllegal(busy[n]);
        ApplyAllAppend(s0, done, IllegalWrites(config, busy[n]));
        assert n == 0 ==> done + IllegalWrites(config, busy[n]) == IllegalWrites(config, 0);
        n := n + 1;
      }
    }

    /**
     * UpdateMetrics (main.go:304-443), with ds[i] the random draws of device i:
     * the header gauges, the device loop, then the illegal-process loop. The
     * new store is the old one after the cycle's writes.
     */
    method UpdateMetrics(ds: seq<Draws>)
      requires |ds| == DeviceCount(config)
      modifies this
      ensures series == AfterCycle(old(series), config, ds)
    {
      ghost var s0 := series;
      UpdateHeader();
      UpdateDevices(ds);
      UpdateIllegals();
      ApplyAllAppend3(s0, HeaderWrites(config), DevicesWrites(config, ds, |ds|), IllegalRun(config));
      ApplyAllAppend3(s0, HeaderWrites(config) + DevicesWrites(config, ds, |ds|), IllegalWrites(config, 0), IllegalWrites(config, 14));
    }
  }
}
