/**
 * The registry's series as an abstract map from (vector, label map) to a
 * value, and the two writes the exporter performs on it:
 * With(labels).Set(v) and With(labels).Add(d), which create the series
 * (at zero) on first use and never delete it.
 */
module Series {
  import opened Wrappers
  import opened Catalog

  /** One series: the vector it belongs to and its label map. */
  datatype SeriesKey = SeriesKey(metric: Metric, labels: map<Label, string>)

  type Store = map<SeriesKey, real>

  /** A write as the source issues it. */
  datatype Write = Set(key: SeriesKey, value: real) | Add(key: SeriesKey, delta: real)

  /** The errors With(labels) and Counter.Add raise (as panics) in the client library. */
  datatype WriteError = LabelSchemaMismatch | NegativeCounterDelta

  /** The current value of a series; a series not yet created reads as the zero it is created with. */
  function Value(s: Store, k: SeriesKey): real
  {
    if k in s then s[k] else 0.0
  }

  /** The value a write leaves in its series, given the value before. */
  function Effect(prev: real, w: Write): real
  {
    match w
    case Set(_, v) => v
    case Add(_, d) => prev + d
  }

  /** One write: creates the series if needed and changes nothing else. */
  function Apply(s: Store, w: Write): (r: Store)
    ensures r.Keys == s.Keys + {w.key}
    ensures r[w.key] == Effect(Value(s, w.key), w)
    ensures forall k :: k in s && k != w.key ==> r[k] == s[k]
  {
    s[w.key := Effect(Value(s, w.key), w)]
  }

  /** A sequence of writes, first to last. */
  function ApplyAll(s: Store, ws: seq<Write>): Store
  {
    if ws == [] then s else Apply(ApplyAll(s, ws[..|ws| - 1]), ws[|ws| - 1])
  }

  function KeysOf(ws: seq<Write>): set<SeriesKey>
  {
    set w | w in ws :: w.key
  }

  /** No series is written twice. */
  predicate DistinctKeys(ws: seq<Write>)
  {
    forall i, j :: 0 <= i < j < |ws| ==> ws[i].key != ws[j].key
  }

  /**
   * The label check With(labels) performs: the map must have as many entries
   * as the vector has label names, and every label name must be present.
   */
  function CheckLabels(vec: Metric, labels: map<Label, string>): Option<WriteError>
  {
    var names := SchemaLabels(SchemaOf(vec));
    if |labels| != |names| then Some(LabelSchemaMismatch)
    else if exists i :: 0 <= i < |names| && names[i] !in labels then Some(LabelSchemaMismatch)
    else None
  }

  /** Every series carries exactly the label names its vector was declared with. */
  predicate SchemaConsistent(s: Store)
  {
    forall k :: k in s ==> k.labels.Keys == SchemaKeys(SchemaOf(k.metric))
  }

  /**
   * A write the client library lets through: its label map matches the
   * vector's schema, only gauges are Set, and a counter is never given a
   * negative delta.
   */
  predicate Lawful(w: Write)
  {
    && w.key.labels.Keys == SchemaKeys(SchemaOf(w.key.metric))
    && (w.Set? ==> KindOf(w.key.metric) == Gauge)
    && (w.Add? && KindOf(w.key.metric) == Counter ==> w.delta >= 0.0)
  }

  predicate AllLawful(ws: seq<Write>)
  {
    forall i :: 0 <= i < |ws| ==> Lawful(ws[i])
  }

  /** Every counter series reads zero. */
  predicate CountersZero(s: Store)
  {
    forall k :: k in s && KindOf(k.metric) == Counter ==> s[k] == 0.0
  }

  /** The label check accepts a map exactly when its key set is the schema's. */
  lemma CheckLabelsExact(vec: Metric, labels: map<Label, string>)
    ensures CheckLabels(vec, labels) == None <==> labels.Keys == SchemaKeys(SchemaOf(vec))
  {
    var names := SchemaLabels(SchemaOf(vec));
    DistinctCard(names);
    if CheckLabels(vec, labels) == None {
      assert SchemaKeys(SchemaOf(vec)) <= labels.Keys;
      SubsetSameSize(SchemaKeys(SchemaOf(vec)), labels.Keys);
    }
  }

  lemma {:induction false} DistinctCard(xs: seq<Label>)
    requires forall i, j :: 0 <= i < j < |xs| ==> xs[i] != xs[j]
    ensures |set i | 0 <= i < |xs| :: xs[i]| == |xs|
  {
    if xs != [] {
      var ys := xs[..|xs| - 1];
      DistinctCard(ys);
      var a := set i | 0 <= i < |xs| :: xs[i];
      var b := set i | 0 <= i < |ys| :: ys[i];
      assert a == b + {xs[|xs| - 1]};
      assert xs[|xs| - 1] !in b;
    }
  }

  lemma SubsetSameSize<T>(a: set<T>, b: set<T>)
    requires a <= b && |a| == |b|
    ensures a == b
  {
    assert |b - a| == |b| - |a|;
  }

  /** Writing never removes a series: the keys afterwards are the old ones plus those written. */
  lemma {:induction false} ApplyAllKeys(s: Store, ws: seq<Write>)
    ensures ApplyAll(s, ws).Keys == s.Keys + KeysOf(ws)
  {
    if ws != [] {
      var init := ws[..|ws| - 1];
      ApplyAllKeys(s, init);
      assert ws == init + [ws[|ws| - 1]];
      assert KeysOf(ws) == KeysOf(init) + {ws[|ws| - 1].key};
    }
  }

  /** Applying two runs of writes is applying their concatenation. */
  lemma {:induction false} ApplyAllAppend(s: Store, a: seq<Write>, b: seq<Write>)
    ensures ApplyAll(s, a + b) == ApplyAll(ApplyAll(s, a), b)
  {
    if b != [] {
      var init, last := b[..|b| - 1], b[|b| - 1];
      ApplyAllAppend(s, a, init);
      assert b == init + [last] && a + b == (a + init) + [last];
      ApplyAllSnoc(s, a + init, last);
      ApplyAllSnoc(ApplyAll(s, a), init, last);
    } else {
      assert a + b == a;
    }
  }

  /** A series no write touches keeps its presence and its value. */
  lemma {:induction false} ApplyAllUntouched(s: Store, ws: seq<Write>, k: SeriesKey)
    requires k !in KeysOf(ws)
    ensures k in ApplyAll(s, ws) <==> k in s
    ensures Value(ApplyAll(s, ws), k) == Value(s, k)
  {
    if ws != [] {
      var init := ws[..|ws| - 1];
      assert KeysOf(init) <= KeysOf(ws);
      ApplyAllUntouched(s, init, k);
    }
  }

  /** When no series is written twice, each write's effect is what remains. */
  lemma {:induction false} ApplyAllDistinct(s: Store, ws: seq<Write>, j: nat)
    requires DistinctKeys(ws) && j < |ws|
    ensures ws[j].key in ApplyAll(s, ws)
    ensures ApplyAll(s, ws)[ws[j].key] == Effect(Value(s, ws[j].key), ws[j])
  {
    var init := ws[..|ws| - 1];
    if j == |ws| - 1 {
      assert ws[j].key !in KeysOf(init);
      ApplyAllUntouched(s, init, ws[j].key);
    } else {
      ApplyAllDistinct(s, init, j);
    }
  }

  lemma AllLawfulConcat(a: seq<Write>, b: seq<Write>)
    requires AllLawful(a) && AllLawful(b)
    ensures AllLawful(a + b)
  {
    assert forall i :: 0 <= i < |a + b| ==> (a + b)[i] == if i < |a| then a[i] else b[i - |a|];
  }

  /** Two runs that are each free of repeats and share no series make a run free of repeats. */
  lemma DistinctConcat(a: seq<Write>, b: seq<Write>)
    requires DistinctKeys(a) && DistinctKeys(b)
    requires forall i, j :: 0 <= i < |a| && 0 <= j < |b| ==> a[i].key != b[j].key
    ensures DistinctKeys(a + b)
  {
    forall i, j | 0 <= i < j < |a + b|
      ensures (a + b)[i].key != (a + b)[j].key
    {
      if j < |a| {
        assert (a + b)[i] == a[i] && (a + b)[j] == a[j];
      } else if i >= |a| {
        assert (a + b)[i] == b[i - |a|] && (a + b)[j] == b[j - |a|];
      } else {
        assert (a + b)[i] == a[i] && (a + b)[j] == b[j - |a|];
      }
    }
  }

  /** Runs of writes issued one after the other. */
  function Flatten(blocks: seq<seq<Write>>): seq<Write>
  {
    if blocks == [] then [] else Flatten(blocks[..|blocks| - 1]) + blocks[|blocks| - 1]
  }

  /** w added to itself n times: the product w * n, kept linear for the solver. */
  function Mul(w: nat, n: nat): nat
  {
    if n == 0 then 0 else Mul(w, n - 1) + w
  }

  lemma {:induction false} MulStrict(w: nat, i: nat, n: nat, k: nat)
    requires i < n && k < w
    ensures Mul(w, i) + k < Mul(w, n)
    decreases n
  {
    if i < n - 1 {
      MulStrict(w, i, n - 1, k);
    }
  }

  lemma {:induction false} FlattenLength(blocks: seq<seq<Write>>, w: nat)
    requires forall b :: 0 <= b < |blocks| ==> |blocks[b]| == w
    ensures |Flatten(blocks)| == Mul(w, |blocks|)
  {
    if blocks != [] {
      FlattenLength(blocks[..|blocks| - 1], w);
    }
  }

  /** When every run has w writes, write k of run i sits at position w * i + k. */
  lemma {:induction false} FlattenAt(blocks: seq<seq<Write>>, w: nat, i: nat, k: nat)
    requires forall b :: 0 <= b < |blocks| ==> |blocks[b]| == w
    requires i < |blocks| && k < w
    ensures |Flatten(blocks)| == Mul(w, |blocks|)
    ensures Mul(w, i) + k < |Flatten(blocks)| && Flatten(blocks)[Mul(w, i) + k] == blocks[i][k]
  {
    var n := |blocks|;
    var init := blocks[..n - 1];
    FlattenLength(init, w);
    FlattenLength(blocks, w);
    assert Flatten(blocks) == Flatten(init) + blocks[n - 1];
    if i < n - 1 {
      FlattenAt(init, w, i, k);
      MulStrict(w, i, n - 1, k);
    }
  }

  /** Every position of a run of equal-length runs is write k of some run i, at w * i + k. */
  lemma {:induction false} FlattenIndex(blocks: seq<seq<Write>>, w: nat, j: nat) returns (i: nat, k: nat)
    requires forall b :: 0 <= b < |blocks| ==> |blocks[b]| == w
    requires j < |Flatten(blocks)|
    ensures i < |blocks| && k < w && j == Mul(w, i) + k
    ensures Flatten(blocks)[j] == blocks[i][k]
  {
    var n := |blocks|;
    var init := blocks[..n - 1];
    FlattenLength(init, w);
    FlattenLength(blocks, w);
    assert Flatten(blocks) == Flatten(init) + blocks[n - 1];
    if j < Mul(w, n - 1) {
      i, k := FlattenIndex(init, w, j);
    } else {
      i, k := n - 1, j - Mul(w, n - 1);
    }
  }

  /** Lawful writes keep every series's label map in its vector's schema. */
  lemma {:induction false} LawfulKeepsSchema(s: Store, ws: seq<Write>)
    requires SchemaConsistent(s) && AllLawful(ws)
    ensures SchemaConsistent(ApplyAll(s, ws))
  {
    if ws != [] {
      LawfulKeepsSchema(s, ws[..|ws| - 1]);
    }
  }

  /** Under lawful writes no counter series ever decreases. */
  lemma {:induction false} CountersNeverDecrease(s: Store, ws: seq<Write>, k: SeriesKey)
    requires AllLawful(ws) && KindOf(k.metric) == Counter
    ensures Value(ApplyAll(s, ws), k) >= Value(s, k)
  {
    if ws != [] {
      var init := ws[..|ws| - 1];
      CountersNeverDecrease(s, init, k);
      assert Lawful(ws[|ws| - 1]);
    }
  }

  /** Writes that give counters nothing but Add(0) keep every counter at zero. */
  lemma {:induction false} ZeroDeltasKeepCountersZero(s: Store, ws: seq<Write>)
    requires CountersZero(s) && CounterDeltasZero(ws)
    ensures CountersZero(ApplyAll(s, ws))
  {
    if ws != [] {
      ZeroDeltasKeepCountersZero(s, ws[..|ws| - 1]);
    }
  }

  /** Every write to a counter is Add(0). */
  predicate CounterDeltasZero(ws: seq<Write>)
  {
    forall i :: 0 <= i < |ws| && KindOf(ws[i].key.metric) == Counter ==> ws[i].Add? && ws[i].delta == 0.0
  }

  /** Runs whose writes carry the same series, position by position, create the same series. */
  lemma SameKeys(a: seq<Write>, b: seq<Write>)
    requires |a| == |b| && forall j :: 0 <= j < |a| ==> a[j].key == b[j].key
    ensures KeysOf(a) == KeysOf(b)
  {
    forall k | k in KeysOf(a)
      ensures k in KeysOf(b)
    {
      var w :| w in a && w.key == k;
      var j :| 0 <= j < |a| && a[j] == w;
      assert b[j] in b;
    }
    forall k | k in KeysOf(b)
      ensures k in KeysOf(a)
    {
      var w :| w in b && w.key == k;
      var j :| 0 <= j < |b| && b[j] == w;
      assert a[j] in a;
    }
  }

  /** A second run that writes, at position j, a series neither the store nor the first run has adds it. */
  lemma NewKeyGrowsAt(s: Store, a: seq<Write>, b: seq<Write>, k: SeriesKey, j: nat)
    requires k !in s && (forall j' :: 0 <= j' < |a| ==> a[j'].key != k) && j < |b| && b[j].key == k
    ensures ApplyAll(s, a).Keys < ApplyAll(ApplyAll(s, a), b).Keys
  {
    ApplyAllKeys(s, a);
    ApplyAllKeys(ApplyAll(s, a), b);
    assert b[j] in b;
  }

  /**
   * Whether the client library lets a write through: With(labels) rejects a label
   * map that does not match the vector's schema, and Counter.Add rejects a negative
   * delta (both panic in the library). Set on a counter does not type-check in the
   * source, so it is not a case here.
   */
  function Rejection(w: Write): Option<WriteError>
  {
    var check := CheckLabels(w.key.metric, w.key.labels);
    if check.Some? then check
    else if w.Add? && KindOf(w.key.metric) == Counter && w.delta < 0.0 then Some(NegativeCounterDelta)
    else None
  }

  /** For the writes that type-check, the library accepts exactly the lawful ones. */
  lemma RejectionIffUnlawful(w: Write)
    requires w.Set? ==> KindOf(w.key.metric) == Gauge
    ensures Rejection(w) == None <==> Lawful(w)
  {
    CheckLabelsExact(w.key.metric, w.key.labels);
  }

  /** Applying one more write is applying it to the store the earlier writes left. */
  lemma ApplyAllSnoc(s: Store, ws: seq<Write>, w: Write)
    ensures ApplyAll(s, ws + [w]) == Apply(ApplyAll(s, ws), w)
  {
    assert (ws + [w])[..|ws|] == ws;
  }

  /** One more write of a run: the prefix of length k + 1 is the prefix of length k, then write k. */
  lemma ApplyAllStep(s: Store, ws: seq<Write>, k: nat)
    requires k < |ws|
    ensures ApplyAll(s, ws[..k + 1]) == Apply(ApplyAll(s, ws[..k]), ws[k])
  {
    assert ws[..k + 1] == ws[..k] + [ws[k]];
    ApplyAllSnoc(s, ws[..k], ws[k]);
  }

  /** The whole of a run is its longest prefix. */
  lemma ApplyAllWhole(s: Store, ws: seq<Write>)
    ensures ApplyAll(s, ws[..|ws|]) == ApplyAll(s, ws)
  {
    assert ws[..|ws|] == ws;
  }

  /** Three runs applied in turn, however the second and third are grouped. */
  lemma ApplyAllAppend3(s: Store, a: seq<Write>, b: seq<Write>, c: seq<Write>)
    ensures ApplyAll(s, a + b + c) == ApplyAll(ApplyAll(ApplyAll(s, a), b), c)
    ensures ApplyAll(s, a + (b + c)) == ApplyAll(s, a + b + c)
  {
    ApplyAllAppend(s, a + b, c);
    ApplyAllAppend(s, a, b);
    ConcatAssoc(a, b, c);
  }

  lemma ConcatAssoc(a: seq<Write>, b: seq<Write>, c: seq<Write>)
    ensures a + (b + c) == a + b + c
  {
  }
}
