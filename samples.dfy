/**
 * The per-device values one UpdateMetrics cycle computes (main.go:339-403).
 * Every rand.Float64() draw is a parameter in [0, 1); the arithmetic is done
 * on reals.
 */
module Samples {
  import opened Identity

  /** The framebuffer size of a PPU-ZW810E card, in MiB (main.go:340). */
  const MemoryTotal: real := 98304.0

  /**
   * The random draws one iteration of the device loop consumes, named by
   * what they feed. memHot is drawn only for the two busy devices and the
   * UUID fill only past the canned table; unused fields are ignored.
   */
  datatype Draws = Draws(
    uuidFill: UuidFill,
    memBase: real,
    memHot: real,
    throttle: real,
    gpuUtil: real,
    memCopy: real,
    gpuTemp: real,
    memTempOffset: real,
    power: real,
    dramActive: real)

  /** What rand.Float64 returns. */
  predicate Unit(x: real)
  {
    0.0 <= x < 1.0
  }

  predicate ValidDraws(d: Draws)
  {
    && ValidFill(d.uuidFill)
    && Unit(d.memBase) && Unit(d.memHot) && Unit(d.throttle) && Unit(d.gpuUtil) && Unit(d.memCopy)
    && Unit(d.gpuTemp) && Unit(d.memTempOffset) && Unit(d.power) && Unit(d.dramActive)
  }

  /** Devices 0 and 14 are the ones shown with a higher memory load. */
  predicate IsHot(i: int)
  {
    i == 0 || i == 14
  }

  /** The values the device loop writes for one device, before they are spread over the vectors. */
  datatype DeviceSample = DeviceSample(
    fbUsed: real,
    fbFree: real,
    throttle: real,
    gpuUtil: real,
    memCopy: real,
    gpuTemp: real,
    memTemp: real,
    power: real,
    dramActive: real)

  /**
   * The values of device i. Whatever the draws, free and used memory add up
   * to the card's total and the throttle reason is idle (1) or power cap (5),
   * the latter exactly when its draw falls below 0.2.
   */
  function Sample(i: int, d: Draws): (s: DeviceSample)
    ensures s.fbUsed + s.fbFree == MemoryTotal
    ensures s.throttle == 1.0 || s.throttle == 5.0
    ensures s.throttle == 5.0 <==> d.throttle < 0.2
  {
    var used := if IsHot(i) then 500.0 + d.memHot * 4000.0 else 18.0 + d.memBase * 100.0;
    var gpuTemp := 30.0 + d.gpuTemp * 10.0;
    DeviceSample(
      fbUsed := used,
      fbFree := MemoryTotal - used,
      throttle := if d.throttle < 0.2 then 5.0 else 1.0,
      gpuUtil := d.gpuUtil * 10.0,
      memCopy := d.memCopy * 5.0,
      gpuTemp := gpuTemp,
      memTemp := gpuTemp + 2.0 + d.memTempOffset * 3.0,
      power := 80.0 + d.power * 15.0,
      dramActive := d.dramActive * 5.0)
  }

  /** Used memory lies in [500, 4500) MiB on the two busy devices and in [18, 118) MiB on the others. */
  lemma MemoryRanges(i: int, d: Draws)
    requires ValidDraws(d)
    ensures IsHot(i) ==> 500.0 <= Sample(i, d).fbUsed < 4500.0
    ensures !IsHot(i) ==> 18.0 <= Sample(i, d).fbUsed < 118.0
    ensures 0.0 < Sample(i, d).fbFree <= MemoryTotal - 18.0
  {
  }

  /**
   * The other readings stay in their advertised bands: GPU temperature in
   * [30, 40), memory at least two degrees warmer and under five degrees
   * warmer, power in [80, 95), GPU utilisation in [0, 10), memory-copy
   * utilisation and DRAM activity in [0, 5).
   */
  lemma ReadingRanges(i: int, d: Draws)
    requires ValidDraws(d)
    ensures var s := Sample(i, d);
      && 30.0 <= s.gpuTemp < 40.0
      && s.gpuTemp + 2.0 <= s.memTemp < s.gpuTemp + 5.0
      && 80.0 <= s.power < 95.0
      && 0.0 <= s.gpuUtil < 10.0
      && 0.0 <= s.memCopy < 5.0
      && 0.0 <= s.dramActive < 5.0
  {
  }
}
