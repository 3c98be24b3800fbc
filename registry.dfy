/**
 * The part of the Prometheus registry the exporter relies on:
 * MustRegister adds collectors one at a time and fails on the first one
 * whose fully-qualified name is already registered (the library panics
 * there, keeping the collectors registered before it).
 */
module Registration {
  import opened Wrappers
  import opened Catalog

  /** The registry after a MustRegister call, and the duplicate name it stopped at, if any. */
  datatype Outcome = Outcome(collectors: map<string, Descriptor>, duplicate: Option<string>)

  /** Registering cs, first to last, into a registry that holds m. */
  function RegisterAll(m: map<string, Descriptor>, cs: seq<Descriptor>): Outcome
    decreases |cs|
  {
    if cs == [] then Outcome(m, None)
    else if cs[0].name in m then Outcome(m, Some(cs[0].name))
    else RegisterAll(m[cs[0].name := cs[0]], cs[1..])
  }

  predicate DistinctNames(cs: seq<Descriptor>)
  {
    forall i, j :: 0 <= i < j < |cs| ==> cs[i].name != cs[j].name
  }

  /** Registration fails exactly when two collectors share a name or one reuses a name already registered. */
  lemma {:induction false} RegisterAllSucceeds(m: map<string, Descriptor>, cs: seq<Descriptor>)
    decreases |cs|
    ensures RegisterAll(m, cs).duplicate == None
        <==> DistinctNames(cs) && forall i :: 0 <= i < |cs| ==> cs[i].name !in m
  {
    if cs != [] {
      var m', rest := m[cs[0].name := cs[0]], cs[1..];
      RegisterAllSucceeds(m', rest);
      assert forall i :: 1 <= i < |cs| ==> cs[i] == rest[i - 1];
    }
  }

  /**
   * A registration that succeeds registers every collector under its name,
   * keeps the collectors registered before, and adds nothing else.
   */
  lemma {:induction false} RegisterAllContents(m: map<string, Descriptor>, cs: seq<Descriptor>)
    requires RegisterAll(m, cs).duplicate == None
    decreases |cs|
    ensures var r := RegisterAll(m, cs).collectors;
      && r.Keys == m.Keys + (set i | 0 <= i < |cs| :: cs[i].name)
      && (forall i :: 0 <= i < |cs| ==> r[cs[i].name] == cs[i])
      && (forall k :: k in m ==> r[k] == m[k])
  {
    if cs != [] {
      var m', rest := m[cs[0].name := cs[0]], cs[1..];
      RegisterAllContents(m', rest);
      assert forall i :: 1 <= i < |cs| ==> cs[i] == rest[i - 1];
      var names := set i | 0 <= i < |cs| :: cs[i].name;
      var names' := set i | 0 <= i < |rest| :: rest[i].name;
      assert names == {cs[0].name} + names' by {
        forall x | x in names ensures x in {cs[0].name} + names' {
          var i :| 0 <= i < |cs| && cs[i].name == x;
          if i > 0 {
            assert rest[i - 1].name == x;
          }
        }
      }
    }
  }

  /** After a successful registration, collector i is registered under its name. */
  lemma RegisteredAt(m: map<string, Descriptor>, cs: seq<Descriptor>, i: nat)
    requires RegisterAll(m, cs).duplicate == None && i < |cs|
    ensures cs[i].name in RegisterAll(m, cs).collectors
    ensures RegisterAll(m, cs).collectors[cs[i].name] == cs[i]
  {
    RegisterAllContents(m, cs);
  }

  /** A registry handed the same collectors twice fails on the first of them the second time. */
  lemma RegisterTwiceFails(m: map<string, Descriptor>, cs: seq<Descriptor>)
    requires cs != [] && RegisterAll(m, cs).duplicate == None
    ensures RegisterAll(RegisterAll(m, cs).collectors, cs).duplicate == Some(cs[0].name)
  {
    RegisterAllSucceeds(m, cs);
    RegisterAllContents(m, cs);
  }

  /** A Prometheus registry reduced to the collectors it holds, by name. */
  class Registry {
    var collectors: map<string, Descriptor>

    /** prometheus.NewRegistry(): an empty registry. */
    constructor()
      ensures collectors == map[]
    {
      collectors := map[];
    }

    /** MustRegister: add each collector in turn, stopping at the first duplicate name. */
    method MustRegister(cs: seq<Descriptor>) returns (duplicate: Option<string>)
      modifies this
      ensures Outcome(collectors, duplicate) == RegisterAll(old(collectors), cs)
    {
      var i := 0;
      while i < |cs|
        invariant 0 <= i <= |cs|
        invariant RegisterAll(collectors, cs[i..]) == RegisterAll(old(collectors), cs)
      {
        assert cs[i..][1..] == cs[i + 1..];
        if cs[i].name in collectors {
          return Some(cs[i].name);
        }
        collectors := collectors[cs[i].name := cs[i]];
        i := i + 1;
      }
      return None;
    }
  }
}
