/**
 * Device identity: the UUID, device name and gpu label of a device index
 * (generateUUID at main.go:278-302 and the strings built at main.go:312-313).
 */
module Identity {
  import opened Digits

  /** How many devices have a canned identifier (the length of the table at main.go:280-297). */
  const CannedCount := 16

  /** The canned identifier of device i, below CannedCount: "GPU-019e" and a fixed tail. */
  function CannedUuid(i: nat): (u: string)
    requires i < CannedCount
    ensures HasPrefix(u, "GPU-019e")
  {
    PrefixOfConcat("GPU-019e", CannedTails[i]);
    "GPU-019e" + CannedTails[i]
  }

  /** What follows "GPU-019e" in each canned identifier, in device order. */
  const CannedTails: seq<string> := [
    "0219-0331-020a-0000-0000608e8e2e",
    "0225-c611-0110-0000-0000c0663c0e",
    "120d-8850-032c-0000-0000406a3958",
    "120d-8930-0516-0000-000040b6030b",
    "1211-40c0-0624-0000-000060f3f056",
    "1211-4120-0524-0000-0000c09f426b",
    "1215-0231-0014-0000-000060512b5e",
    "1215-0241-0820-0000-0000a0087936",
    "1215-0281-0210-0000-0000a0d60a51",
    "1215-c280-0416-0000-0000407aa063",
    "1215-c2a0-0226-0000-0000c0c6fa0a",
    "4201-0591-0330-0000-000060416e2b",
    "4201-8920-0430-0000-0000605abd70",
    "4201-8920-0614-0000-0000603e9c39",
    "4201-8930-0014-0000-000020029626",
    "c20c-49c2-0224-0000-0000e02b8d24"
  ]

  lemma PrefixOfConcat(p: string, r: string)
    ensures HasPrefix(p + r, p)
  {
  }

  /**
   * The three random draws generateUUID makes past the canned table:
   * rand.Intn(10000), rand.Intn(10000) and rand.Intn(0xFFFFFFFF).
   */
  datatype UuidFill = UuidFill(a: nat, b: nat, c: nat)

  predicate ValidFill(f: UuidFill)
  {
    f.a < 10000 && f.b < 10000 && f.c < 0xFFFF_FFFF
  }

  /** strconv.Itoa and %d on a non-negative int. */
  function Itoa(n: nat): string
  {
    Format(n, 10)
  }

  /** The value of the gpu label: the index in decimal. */
  function GpuLabel(i: nat): string
  {
    Itoa(i)
  }

  /** The value of the device label, "nvidia" followed by the index. */
  function DeviceName(i: nat): string
  {
    "nvidia" + Itoa(i)
  }

  /**
   * generateUUID: the canned entry below sixteen, otherwise
   * "GPU-019e%04d-%04d-%04d-0000-0000%08x" of the index and the three draws.
   * Either way the identifier carries the "GPU-019e" prefix.
   */
  function GenerateUUID(gpuID: nat, fill: UuidFill): (u: string)
    ensures HasPrefix(u, "GPU-019e")
  {
    if gpuID < CannedCount then CannedUuid(gpuID)
    else "GPU-019e" + ZeroPad(Itoa(gpuID), 4) + RandomTail(fill)
  }

  /** What "-%04d-%04d-0000-0000%08x" prints for the three draws. */
  function RandomTail(fill: UuidFill): string
  {
    "-" + ZeroPad(Itoa(fill.a), 4) + "-" + ZeroPad(Itoa(fill.b), 4) + "-0000-0000" + ZeroPad(Format(fill.c, 16), 8)
  }

  predicate HasPrefix(u: string, p: string)
  {
    |p| <= |u| && forall i :: 0 <= i < |p| ==> u[i] == p[i]
  }

  /** The 8-4-4-4-12 hexadecimal shape every identifier of the source has. */
  predicate WellFormedUuid(u: string)
  {
    && |u| == 40
    && HasPrefix(u, "GPU-")
    && forall i :: 4 <= i < 40 ==>
         if i == 12 || i == 17 || i == 22 || i == 27 then u[i] == '-' else IsDigitOf(u[i], 16)
  }

  /** The fields a random-branch identifier was formatted from. */
  datatype UuidFields = UuidFields(gpuID: nat, fill: UuidFill)

  /**
   * Reads back the index and the three draws from a random-branch identifier.
   * The draws sit in its last 28 characters, whose fields have a fixed width;
   * the index, which %04d prints with at least four digits, sits between the
   * "GPU-019e" prefix and them.
   */
  function ParseRandomUuid(u: string): UuidFields
    requires |u| >= 36
  {
    UuidFields(Parse(u[8..|u| - 28], 10), ParseTail(u[|u| - 28..]))
  }

  /** Reads back the three draws from "-%04d-%04d-0000-0000%08x". */
  function ParseTail(t: string): UuidFill
    requires |t| == 28
  {
    UuidFill(Parse(t[1..5], 10), Parse(t[6..10], 10), Parse(t[20..28], 16))
  }

  lemma PowFacts()
    ensures Pow(10, 4) == 10000
    ensures Pow(16, 8) == 0x1_0000_0000
  {
    assert Pow(10, 2) == 100;
    assert Pow(16, 4) == 0x1_0000;
  }

  /** For draws in range every field of the tail has its full width, so the tail is 28 characters. */
  lemma RandomTailParts(fill: UuidFill)
    requires ValidFill(fill)
    ensures var t := RandomTail(fill);
      && |t| == 28
      && t[0] == '-' && t[5] == '-'
      && t[1..5] == ZeroPad(Itoa(fill.a), 4)
      && t[6..10] == ZeroPad(Itoa(fill.b), 4)
      && t[10..20] == "-0000-0000"
      && t[20..28] == ZeroPad(Format(fill.c, 16), 8)
  {
    PowFacts();
    PaddedWidth(fill.a, 10, 4);
    PaddedWidth(fill.b, 10, 4);
    PaddedWidth(fill.c, 16, 8);
    TailSlices(ZeroPad(Itoa(fill.a), 4), ZeroPad(Itoa(fill.b), 4), ZeroPad(Format(fill.c, 16), 8));
  }

  lemma TailSlices(a: string, b: string, c: string)
    requires |a| == 4 && |b| == 4 && |c| == 8
    ensures var t := "-" + a + "-" + b + "-0000-0000" + c;
      && |t| == 28
      && t[0] == '-' && t[5] == '-'
      && t[1..5] == a && t[6..10] == b && t[10..20] == "-0000-0000" && t[20..28] == c
  {
    var s2 := "-" + a;
    var s4 := s2 + "-" + b;
    var s5 := s4 + "-0000-0000";
    var t := s5 + c;
    assert t[1..5] == s2[1..5] == a;
    assert t[6..10] == s4[6..10] == b;
    assert t[10..20] == s5[10..20] == "-0000-0000";
  }

  /** An identifier of the random branch splits into prefix, index field and tail. */
  lemma UuidSlices(p: string, g: string, t: string)
    requires |p| == 8 && |t| == 28
    ensures var u := p + g + t;
      && |u| == 36 + |g|
      && u[8..|u| - 28] == g
      && u[|u| - 28..] == t
  {
    var u := p + g + t;
    assert u[8..|u| - 28] == (p + g)[8..] == g;
  }

  /**
   * Identifiers past the canned table encode the index and the draws: parsing
   * gives them back, for every index.
   */
  lemma RandomUuidRoundTrip(gpuID: nat, fill: UuidFill)
    requires 16 <= gpuID && ValidFill(fill)
    ensures |GenerateUUID(gpuID, fill)| >= 36
    ensures ParseRandomUuid(GenerateUUID(gpuID, fill)) == UuidFields(gpuID, fill)
  {
    var t := RandomTail(fill);
    RandomTailParts(fill);
    UuidSlices("GPU-019e", ZeroPad(Itoa(gpuID), 4), t);
    ParseZeroPad(gpuID, 10, 4);
    ParseZeroPad(fill.a, 10, 4);
    ParseZeroPad(fill.b, 10, 4);
    ParseZeroPad(fill.c, 16, 8);
  }

  /** So two different draws give a device past the canned table two different identifiers. */
  lemma RandomUuidInjective(gpuID: nat, f1: UuidFill, f2: UuidFill)
    requires 16 <= gpuID && ValidFill(f1) && ValidFill(f2)
    requires f1 != f2
    ensures GenerateUUID(gpuID, f1) != GenerateUUID(gpuID, f2)
  {
    RandomUuidRoundTrip(gpuID, f1);
    RandomUuidRoundTrip(gpuID, f2);
  }

  /**
   * An identifier past the canned table, for an index below 10000, has the
   * 8-4-4-4-12 hexadecimal shape of the canned ones.
   */
  lemma RandomUuidWellFormed(gpuID: nat, fill: UuidFill)
    requires 16 <= gpuID < 10000 && ValidFill(fill)
    ensures WellFormedUuid(GenerateUUID(gpuID, fill))
  {
    var g, t := ZeroPad(Itoa(gpuID), 4), RandomTail(fill);
    PowFacts();
    PaddedWidth(gpuID, 10, 4);
    RandomTailParts(fill);
    PaddedWidth(fill.a, 10, 4);
    PaddedWidth(fill.b, 10, 4);
    PaddedWidth(fill.c, 16, 8);
    DecimalIsHex(g);
    DecimalIsHex(t[1..5]);
    DecimalIsHex(t[6..10]);
    FieldsWellFormed(g, t);
  }

  lemma DecimalIsHex(s: string)
    requires AllDigitsOf(s, 10)
    ensures AllDigitsOf(s, 16)
  {
  }

  lemma FieldsWellFormed(g: string, t: string)
    requires |g| == 4 && AllDigitsOf(g, 16) && |t| == 28 && t[0] == '-' && t[5] == '-'
    requires AllDigitsOf(t[1..5], 16) && AllDigitsOf(t[6..10], 16)
    requires t[10..20] == "-0000-0000" && AllDigitsOf(t[20..28], 16)
    ensures WellFormedUuid("GPU-019e" + g + t)
  {
    var u := "GPU-019e" + g + t;
    forall i | 4 <= i < 40
      ensures if i == 12 || i == 17 || i == 22 || i == 27 then u[i] == '-' else IsDigitOf(u[i], 16)
    {
      if i < 8 { assert u[i] == "GPU-019e"[i]; }
      else if i < 12 { assert u[i] == g[i - 8]; }
      else {
        var k := i - 12;
        assert u[i] == t[k];
        if 1 <= k < 5 { assert t[k] == t[1..5][k - 1]; }
        else if 6 <= k < 10 { assert t[k] == t[6..10][k - 6]; }
        else if 10 <= k < 20 { assert t[k] == t[10..20][k - 10]; }
        else if 20 <= k { assert t[k] == t[20..28][k - 20]; }
      }
    }
  }

  /** The canned identifiers are pairwise distinct, so the first sixteen devices never share one. */
  lemma CannedUuidsDistinct()
    ensures forall i, j :: 0 <= i < j < CannedCount ==> CannedUuid(i) != CannedUuid(j)
  {
    CannedTailsDistinct();
    forall i, j | 0 <= i < j < CannedCount
      ensures CannedUuid(i) != CannedUuid(j)
    {
      PrefixCancels("GPU-019e", CannedTails[i], CannedTails[j]);
    }
  }

  lemma CannedTailsDistinct()
    ensures |CannedTails| == CannedCount
    ensures forall i, j :: 0 <= i < j < CannedCount ==> CannedTails[i] != CannedTails[j]
  {
  }

  /** A common prefix does not make different strings equal. */
  lemma PrefixCancels(p: string, a: string, b: string)
    ensures a != b ==> p + a != p + b
  {
    assert (p + a)[|p|..] == a && (p + b)[|p|..] == b;
  }

  /** Distinct indices give distinct gpu labels. */
  lemma {:induction false} GpuLabelInjective(i: nat, j: nat)
    requires GpuLabel(i) == GpuLabel(j)
    ensures i == j
  {
    ParseFormat(i, 10);
    ParseFormat(j, 10);
  }

  /** Below the canned table's length the identifier is the canned entry, whatever the draws. */
  lemma CannedIgnoresFill(gpuID: nat, f1: UuidFill, f2: UuidFill)
    requires gpuID < CannedCount
    ensures GenerateUUID(gpuID, f1) == GenerateUUID(gpuID, f2) == CannedUuid(gpuID)
  {
  }

  /** The gpu labels of the two devices the illegal-process loop reports. */
  lemma BusyGpuLabels()
    ensures GpuLabel(0) == "0" && GpuLabel(14) == "14"
  {
  }
}
