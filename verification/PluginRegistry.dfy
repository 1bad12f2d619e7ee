/**
 The plugin registry: registration, enabling, lookup by capability, and the startup order
 computed from dependencies that are expressed as capability names.
 */
module PluginRegistry {
  import opened Options
  import opened StartupOrder

  datatype Capability = Capability(name: string)

  datatype Descriptor = Descriptor(id: PluginID, kind: string,
                                   capabilities: seq<Capability>, dependsOn: seq<Capability>)

  datatype RegistryError =
    | AlreadyRegistered
    | UnknownPlugin
    | NoProviders(id: PluginID, capability: Capability)
    | DependencyCycle

  // ---------------------------------------------------------------- what the descriptors mean

  type Catalog = map<PluginID, Descriptor>

  /** d requires a capability that p provides. */
  predicate Requires(cat: Catalog, d: PluginID, p: PluginID) {
    && d in cat && p in cat
    && exists cap :: cap in cat[d].dependsOn && cap in cat[p].capabilities
  }

  predicate Unmet(cat: Catalog, d: PluginID, cap: Capability) {
    && d in cat && cap in cat[d].dependsOn
    && forall p :: p in cat ==> cap !in cat[p].capabilities
  }

  ghost predicate SomeUnmet(cat: Catalog) {
    exists d, cap :: Unmet(cat, d, cap)
  }

  ghost predicate RequirementCycle(cat: Catalog) {
    exists walk: seq<PluginID> ::
      && |walk| >= 2 && walk[0] == walk[|walk| - 1]
      && forall i :: 1 <= i < |walk| ==> RequiresPrevious(cat, walk, i)
  }

  predicate RequiresPrevious(cat: Catalog, walk: seq<PluginID>, i: nat)
    requires 1 <= i < |walk|
  {
    Requires(cat, walk[i], walk[i - 1])
  }

  /** All registered ids once each, and every provider strictly before every plugin requiring it. */
  ghost predicate StartsInOrder(cat: Catalog, order: seq<PluginID>) {
    && Distinct(order)
    && (forall id :: id in order <==> id in cat)
    && (forall i, j :: 0 <= i < |order| && 0 <= j < |order| && Requires(cat, order[j], order[i]) ==> i < j)
  }

  // ---------------------------------------------------------------- the registry's own tables

  class Registration {
    const descriptor: Descriptor
    var enabled: bool

    constructor (d: Descriptor)
      ensures descriptor == d && enabled
    {
      descriptor := d;
      enabled := true;
    }
  }

  /** The descriptors of the enabled ones, in order. */
  function EnabledOf(regs: seq<Registration>): seq<Descriptor>
    reads regs
  {
    if regs == [] then []
    else EnabledOf(regs[..|regs| - 1]) + if regs[|regs| - 1].enabled then [regs[|regs| - 1].descriptor] else []
  }

  lemma {:induction false} EnabledOfMember(regs: seq<Registration>, d: Descriptor)
    ensures d in EnabledOf(regs) <==> exists k :: 0 <= k < |regs| && regs[k].enabled && regs[k].descriptor == d
  {
    if regs != [] {
      var front := regs[..|regs| - 1];
      EnabledOfMember(front, d);
      assert forall k :: 0 <= k < |front| ==> front[k] == regs[k];
    }
  }

  type Index = map<Capability, seq<Registration>>

  function Offering(index: Index, cap: Capability): seq<Registration> {
    if cap in index then index[cap] else []
  }

  predicate Provided(index: Index, cap: Capability) {
    |Offering(index, cap)| > 0
  }

  predicate AllProvided(index: Index, caps: seq<Capability>, n: nat)
    requires n <= |caps|
  {
    n == 0 || (AllProvided(index, caps, n - 1) && Provided(index, caps[n - 1]))
  }

  lemma {:induction false} AllProvidedMember(index: Index, caps: seq<Capability>, n: nat, k: nat)
    requires k < n <= |caps| && AllProvided(index, caps, n)
    ensures Provided(index, caps[k])
  {
    if k < n - 1 {
      AllProvidedMember(index, caps, n - 1, k);
    }
  }

  predicate Offers(index: Index, cap: Capability, older r: Registration) {
    r in Offering(index, cap)
  }

  function Ids(regs: seq<Registration>): (ids: seq<PluginID>)
    ensures |ids| == |regs| && forall i :: 0 <= i < |regs| ==> ids[i] == regs[i].descriptor.id
  {
    seq(|regs|, i requires 0 <= i < |regs| => regs[i].descriptor.id)
  }

  /** The providers of all the capabilities, one after the other. */
  function ProvidersOf(index: Index, caps: seq<Capability>): seq<PluginID> {
    ProvidersUpTo(index, caps, |caps|)
  }

  function ProvidersUpTo(index: Index, caps: seq<Capability>, n: nat): seq<PluginID>
    requires n <= |caps|
  {
    if n == 0 then [] else ProvidersUpTo(index, caps, n - 1) + Ids(Offering(index, caps[n - 1]))
  }

  /** Appending `id` to the waiting list of each of the first n providers. */
  function AddUpTo(deps: Dependents, providers: seq<PluginID>, n: nat, id: PluginID): Dependents
    requires n <= |providers|
  {
    if n == 0 then deps else Wait(AddUpTo(deps, providers, n - 1, id), providers[n - 1], id)
  }

  function Wait(deps: Dependents, p: PluginID, id: PluginID): Dependents {
    deps[p := Waiting(deps, p) + [id]]
  }

  /** The edges of one required capability. */
  function AddCap(deps: Dependents, index: Index, cap: Capability, id: PluginID): Dependents {
    AddUpTo(deps, Ids(Offering(index, cap)), |Offering(index, cap)|, id)
  }

  /** The edges of the first n required capabilities. */
  function AddCaps(deps: Dependents, index: Index, caps: seq<Capability>, n: nat, id: PluginID): Dependents
    requires n <= |caps|
  {
    if n == 0 then deps else AddCap(AddCaps(deps, index, caps, n - 1, id), index, caps[n - 1], id)
  }

  /** How often d waits for p. */
  function Edges(deps: Dependents, p: PluginID, d: PluginID): nat {
    multiset(Waiting(deps, p))[d]
  }

  lemma WaitCounts(deps: Dependents, q: PluginID, id: PluginID, p: PluginID, d: PluginID)
    ensures Edges(Wait(deps, q, id), p, d) == Edges(deps, p, d) + if p == q && d == id then 1 else 0
  {
    assert Waiting(Wait(deps, q, id), p) == if p == q then Waiting(deps, p) + [id] else Waiting(deps, p);
  }

  lemma OneMore(ps: seq<PluginID>, n: nat, p: PluginID)
    requires 0 < n <= |ps|
    ensures multiset(ps[..n])[p] == multiset(ps[..n - 1])[p] + if p == ps[n - 1] then 1 else 0
  {
    assert ps[..n] == ps[..n - 1] + [ps[n - 1]];
  }

  lemma {:induction false} AddUpToCounts(deps: Dependents, ps: seq<PluginID>, n: nat, id: PluginID,
                                         p: PluginID, d: PluginID)
    requires n <= |ps|
    ensures Edges(AddUpTo(deps, ps, n, id), p, d) == Edges(deps, p, d) + if d == id then multiset(ps[..n])[p] else 0
  {
    if n > 0 {
      AddUpToCounts(deps, ps, n - 1, id, p, d);
      OneMore(ps, n, p);
      WaitCounts(AddUpTo(deps, ps, n - 1, id), ps[n - 1], id, p, d);
    }
  }

  /** Recording the dependencies of `id` adds each provider as often as it is resolved. */
  lemma {:induction false} AddCapsCounts(deps: Dependents, index: Index, caps: seq<Capability>, n: nat, id: PluginID,
                                         p: PluginID, d: PluginID)
    requires n <= |caps|
    ensures Edges(AddCaps(deps, index, caps, n, id), p, d) ==
            Edges(deps, p, d) + if d == id then multiset(ProvidersUpTo(index, caps, n))[p] else 0
  {
    if n > 0 {
      AddCapsCounts(deps, index, caps, n - 1, id, p, d);
      var ids := Ids(Offering(index, caps[n - 1]));
      AddUpToCounts(AddCaps(deps, index, caps, n - 1, id), ids, |ids|, id, p, d);
      assert ids[..|ids|] == ids;
    }
  }

  lemma {:induction false} ProvidersOfMember(index: Index, caps: seq<Capability>, n: nat, p: PluginID)
    requires n <= |caps|
    ensures p in ProvidersUpTo(index, caps, n) <==>
            exists i, r :: 0 <= i < n && Offers(index, caps[i], r) && r.descriptor.id == p
  {
    if n > 0 {
      ProvidersOfMember(index, caps, n - 1, p);
      var regs := Offering(index, caps[n - 1]);
      if p in Ids(regs) {
        var i :| 0 <= i < |regs| && Ids(regs)[i] == p;
        assert Offers(index, caps[n - 1], regs[i]);
      }
      forall r | Offers(index, caps[n - 1], r) && r.descriptor.id == p ensures p in Ids(regs) {
        var i :| 0 <= i < |regs| && regs[i] == r;
        assert Ids(regs)[i] == p;
      }
    }
  }

  type Needs = map<PluginID, seq<Capability>>

  function NeedEdges(needs: Needs, index: Index, p: PluginID, d: PluginID): nat {
    if d in needs then multiset(ProvidersOf(index, needs[d]))[p] else 0
  }

  /** The waiting lists grew by the edges of every dependent plugin not in `left`. */
  ghost predicate Grew(before: Dependents, after: Dependents, needs: Needs, index: Index, left: set<PluginID>) {
    forall p, d :: Edges(after, p, d) == Edges(before, p, d) + if d in left then 0 else NeedEdges(needs, index, p, d)
  }

  lemma GrewStep(before: Dependents, mid: Dependents, needs: Needs, index: Index, left: set<PluginID>, id: PluginID)
    requires Grew(before, mid, needs, index, left) && id in needs && id in left
    ensures Grew(before, AddCaps(mid, index, needs[id], |needs[id]|, id), needs, index, left - {id})
  {
    var after := AddCaps(mid, index, needs[id], |needs[id]|, id);
    forall p, d
      ensures Edges(after, p, d) == Edges(before, p, d) + if d in left - {id} then 0 else NeedEdges(needs, index, p, d)
    {
      AddCapsCounts(mid, index, needs[id], |needs[id]|, id, p, d);
      assert Edges(mid, p, d) == Edges(before, p, d) + if d in left then 0 else NeedEdges(needs, index, p, d);
    }
  }

  type Table = map<PluginID, Registration>

  ghost predicate OnlyListed(table: Table, index: Index) {
    forall cap, r :: Offers(index, cap, r) ==>
      r.descriptor.id in table && table[r.descriptor.id] == r && cap in r.descriptor.capabilities
  }

  ghost predicate AllListed(table: Table, index: Index) {
    forall id, cap :: id in table && cap in table[id].descriptor.capabilities ==> Offers(index, cap, table[id])
  }

  /** The index lists every registered plugin under exactly its capabilities. */
  ghost predicate Consistent(table: Table, index: Index) {
    && (forall id :: id in table ==> table[id].descriptor.id == id)
    && OnlyListed(table, index) && AllListed(table, index)
  }

  /** The dependencies of the plugins that have any. */
  function Declared(table: Table): Needs {
    map id | id in table && table[id].descriptor.dependsOn != [] :: table[id].descriptor.dependsOn
  }

  function Descriptors(table: Table): Catalog {
    map id | id in table :: table[id].descriptor
  }

  /** For every registered plugin the providers its dependencies resolve to. */
  function Resolution(table: Table, index: Index, needs: Needs): Graph {
    map id | id in table :: ProvidersOf(index, if id in needs then needs[id] else [])
  }

  /** Every recorded edge is a requirement the descriptors express. */
  ghost predicate Known(table: Table, deps: Dependents) {
    forall p, d :: Edges(deps, p, d) > 0 ==> Requires(Descriptors(table), d, p)
  }

  /** A plugin with recorded edges requires nobody but the provider they come from. */
  ghost predicate Repeatable(table: Table, deps: Dependents) {
    forall p, d, q :: Edges(deps, p, d) > 0 && Requires(Descriptors(table), d, q) ==> q == p
  }

  /** No plugin has two providers. */
  ghost predicate SoleProviders(cat: Catalog) {
    forall d, p, q :: Requires(cat, d, p) && Requires(cat, d, q) ==> p == q
  }

  lemma SoleProvidersRepeat(table: Table, deps: Dependents)
    requires Known(table, deps) && SoleProviders(Descriptors(table))
    ensures Repeatable(table, deps)
  {
  }

  /** The index after listing `reg` under the first n of `caps`. */
  function Listed(index: Index, reg: Registration, caps: seq<Capability>, n: nat): Index
    requires n <= |caps|
  {
    if n == 0 then index
    else
      var m := Listed(index, reg, caps, n - 1);
      m[caps[n - 1] := Offering(m, caps[n - 1]) + [reg]]
  }

  lemma {:induction false} ListedIsExtended(index: Index, reg: Registration, caps: seq<Capability>, n: nat)
    requires n <= |caps|
    ensures Extended(index, Listed(index, reg, caps, n), reg, caps[..n])
  {
    if n > 0 {
      ListedIsExtended(index, reg, caps, n - 1);
      assert caps[..n] == caps[..n - 1] + [caps[n - 1]];
    }
  }

  /** Exactly `reg` was added, under the capabilities `caps`. */
  ghost predicate Extended(before: Index, after: Index, reg: Registration, caps: seq<Capability>) {
    && (forall cap, r :: Offers(after, cap, r) ==> Offers(before, cap, r) || (r == reg && cap in caps))
    && (forall cap, r :: Offers(before, cap, r) ==> Offers(after, cap, r))
    && (forall cap :: cap in caps ==> Offers(after, cap, reg))
  }

  lemma ExtendedIsConsistent(table: Table, before: Index, after: Index, reg: Registration)
    requires Consistent(table, before) && reg.descriptor.id !in table
    requires Extended(before, after, reg, reg.descriptor.capabilities)
    ensures Consistent(table[reg.descriptor.id := reg], after)
  {
  }

  lemma ExtendedStaysKnown(table: Table, reg: Registration, deps: Dependents)
    requires Known(table, deps) && reg.descriptor.id !in table
    ensures Known(table[reg.descriptor.id := reg], deps)
  {
    var after := table[reg.descriptor.id := reg];
    forall p, d | Edges(deps, p, d) > 0 ensures Requires(Descriptors(after), d, p) {
      var cat := Descriptors(table);
      var cap :| cap in cat[d].dependsOn && cap in cat[p].capabilities;
      assert cap in Descriptors(after)[d].dependsOn && cap in Descriptors(after)[p].capabilities;
    }
  }

  lemma ExtendedTable(table: Table, reg: Registration)
    requires reg.descriptor.id !in table
    ensures var d := reg.descriptor;
            var extended := table[d.id := reg];
            && Descriptors(extended) == Descriptors(table)[d.id := d]
            && Declared(extended) == if d.dependsOn == [] then Declared(table) else Declared(table)[d.id := d.dependsOn]
  {
  }

  class Registry {
    var byID: Table
    var byCapability: Index
    var dependencies: Needs
    var dependents: Dependents
    var sortedStartup: seq<PluginID>

    ghost predicate Valid()
      reads this
    {
      Consistent(byID, byCapability) && dependencies == Declared(byID) && Known(byID, dependents)
    }

    ghost function Catalog(): Catalog
      reads this
    {
      Descriptors(byID)
    }

    /** For every registered plugin the providers its dependencies resolve to. */
    ghost function Resolved(): Graph
      reads this
    {
      Resolution(byID, byCapability, dependencies)
    }

    constructor ()
      ensures Valid() && byID == map[] && byCapability == map[] && dependents == map[] && sortedStartup == []
    {
      byID, byCapability, dependencies, dependents, sortedStartup := map[], map[], map[], map[], [];
    }

    method Register(d: Descriptor) returns (err: Option<RegistryError>)
      requires Valid()
      modifies this
      ensures Valid() && dependents == old(dependents) && sortedStartup == old(sortedStartup)
      ensures err == (if d.id in old(byID) then Some(AlreadyRegistered) else None)
      ensures err.Some? ==> byID == old(byID) && byCapability == old(byCapability)
      ensures err.None? ==> Catalog() == old(Catalog())[d.id := d]
      ensures err.None? ==> d.id in byID && fresh(byID[d.id]) && byID[d.id].enabled
      ensures err.None? ==> byID == old(byID)[d.id := byID[d.id]]
      ensures err.None? ==> byCapability == Listed(old(byCapability), byID[d.id], d.capabilities, |d.capabilities|)
    {
      if d.id in byID {
        return Some(AlreadyRegistered);
      }
      var reg := new Registration(d);
      byID := byID[d.id := reg];
      AddToIndex(reg);
      ListedIsExtended(old(byCapability), reg, d.capabilities, |d.capabilities|);
      assert d.capabilities[..|d.capabilities|] == d.capabilities;
      ExtendedIsConsistent(old(byID), old(byCapability), byCapability, reg);
      ExtendedTable(old(byID), reg);
      ExtendedStaysKnown(old(byID), reg, dependents);
      if |d.dependsOn| > 0 {
        dependencies := dependencies[d.id := d.dependsOn];
      }
      return None;
    }

    method AddToIndex(reg: Registration)
      modifies this`byCapability
      ensures byCapability == Listed(old(byCapability), reg, reg.descriptor.capabilities, |reg.descriptor.capabilities|)
    {
      var caps := reg.descriptor.capabilities;
      for i := 0 to |caps|
        invariant byCapability == Listed(old(byCapability), reg, caps, i)
      {
        byCapability := byCapability[caps[i] := Offering(byCapability, caps[i]) + [reg]];
      }
    }

    method Enable(id: PluginID) returns (err: Option<RegistryError>)
      requires Valid()
      modifies if id in byID then {byID[id]} else {}
      ensures err == (if id in byID then None else Some(UnknownPlugin))
      ensures id in byID ==> byID[id].enabled
    {
      if id !in byID {
        return Some(UnknownPlugin);
      }
      byID[id].enabled := true;
      return None;
    }

    method Disable(id: PluginID) returns (err: Option<RegistryError>)
      requires Valid()
      modifies if id in byID then {byID[id]} else {}
      ensures err == (if id in byID then None else Some(UnknownPlugin))
      ensures id in byID ==> !byID[id].enabled
    {
      if id !in byID {
        return Some(UnknownPlugin);
      }
      byID[id].enabled := false;
      return None;
    }

    /**
     The enabled ones of the plugins listed for the capability, in the order of registration; these
     are exactly the enabled plugins that provide it.
     */
    method ResolveByCapability(cap: Capability) returns (out: seq<Descriptor>)
      requires Valid()
      ensures out == EnabledOf(Offering(byCapability, cap))
      ensures forall d :: d in out <==>
                d.id in byID && byID[d.id].descriptor == d && byID[d.id].enabled && cap in d.capabilities
    {
      var regs := Offering(byCapability, cap);
      out := [];
      for i := 0 to |regs|
        invariant out == EnabledOf(regs[..i])
      {
        if regs[i].enabled {
          out := out + [regs[i].descriptor];
        }
        assert regs[..i + 1][..i] == regs[..i];
      }
      assert regs[..|regs|] == regs;
      forall d ensures d in out <==>
                         d.id in byID && byID[d.id].descriptor == d && byID[d.id].enabled && cap in d.capabilities
      {
        EnabledOfMember(regs, d);
        if d in out {
          var k :| 0 <= k < |regs| && regs[k].enabled && regs[k].descriptor == d;
          assert Offers(byCapability, cap, regs[k]);
        } else if d.id in byID && cap in d.capabilities && byID[d.id].descriptor == d {
          assert Offers(byCapability, cap, byID[d.id]);
        }
      }
    }

    // -------------------------------------------------------------- the startup order

    /** Resolves every dependency and appends the edges found; stops at the first unmet one. */
    method RecordEdges() returns (err: Option<RegistryError>)
      requires Valid()
      modifies this`dependents
      ensures err.None? ==> !SomeUnmet(Catalog()) && Grew(old(dependents), dependents, dependencies, byCapability, {})
      ensures err.Some? ==> err.value.NoProviders? && Unmet(Catalog(), err.value.id, err.value.capability)
      ensures Known(byID, dependents)
    {
      var left := dependencies.Keys;
      while left != {}
        invariant left <= dependencies.Keys && Known(byID, dependents)
        invariant Grew(old(dependents), dependents, dependencies, byCapability, left)
        invariant forall id :: id in dependencies && id !in left ==>
                    AllProvided(byCapability, dependencies[id], |dependencies[id]|)
      {
        var id :| id in left;
        ghost var before := dependents;
        var met, n := RecordEdgesOf(id, dependencies[id]);
        RecordedAreKnown(byID, byCapability, before, id, n);
        if !met {
          OfferingsProvide(dependencies[id][n - 1]);
          return Some(NoProviders(id, dependencies[id][n - 1]));
        }
        GrewStep(old(dependents), before, dependencies, byCapability, left, id);
        left := left - {id};
      }
      err := None;
      forall d, cap | Unmet(Catalog(), d, cap) ensures false {
        var k :| 0 <= k < |dependencies[d]| && dependencies[d][k] == cap;
        AllProvidedMember(byCapability, dependencies[d], |dependencies[d]|, k);
        OfferingsProvide(cap);
      }
    }

    lemma OfferingsProvide(cap: Capability)
      requires Valid()
      ensures Provided(byCapability, cap) <==> exists p :: p in Catalog() && cap in Catalog()[p].capabilities
    {
      var regs := Offering(byCapability, cap);
      if regs != [] {
        assert Offers(byCapability, cap, regs[0]);
        assert cap in Catalog()[regs[0].descriptor.id].capabilities;
      }
      forall p | p in byID && cap in byID[p].descriptor.capabilities ensures regs != [] {
        assert Offers(byCapability, cap, byID[p]);
      }
    }

    /** The edges of one plugin, up to its first unmet capability; n is the number looked at. */
    method RecordEdgesOf(id: PluginID, caps: seq<Capability>) returns (met: bool, n: nat)
      modifies this`dependents
      ensures n <= |caps| && dependents == AddCaps(old(dependents), byCapability, caps, n, id)
      ensures met ==> n == |caps| && AllProvided(byCapability, caps, n)
      ensures !met ==> n > 0 && !Provided(byCapability, caps[n - 1])
    {
      met, n := true, 0;
      while met && n < |caps|
        invariant n <= |caps| && dependents == AddCaps(old(dependents), byCapability, caps, n, id)
        invariant if met then AllProvided(byCapability, caps, n) else n > 0 && !Provided(byCapability, caps[n - 1])
      {
        met := Append(caps[n], id);
        n := n + 1;
      }
    }

    /** The edges of one required capability; without a provider there are none. */
    method Append(cap: Capability, id: PluginID) returns (found: bool)
      modifies this`dependents
      ensures found == Provided(byCapability, cap)
      ensures dependents == AddCap(old(dependents), byCapability, cap, id)
    {
      var regs := Offering(byCapability, cap);
      for j := 0 to |regs|
        invariant dependents == AddUpTo(old(dependents), Ids(regs), j, id)
      {
        var p := regs[j].descriptor.id;
        dependents := dependents[p := Waiting(dependents, p) + [id]];
      }
      return |regs| != 0;
    }

    /** The number of providers of every plugin, repetitions included. */
    method CountProviders() returns (inDegree: map<PluginID, int>)
      requires dependencies.Keys <= byID.Keys
      ensures inDegree == map id | id in Resolved() :: |Resolved()[id]|
    {
      inDegree := map id | id in byID :: 0;
      var left := dependencies.Keys;
      while left != {}
        invariant left <= dependencies.Keys && inDegree.Keys == byID.Keys
        invariant forall id :: id in byID ==> inDegree[id] == if id in left then 0 else |Resolved()[id]|
      {
        var id :| id in left;
        inDegree := CountProvidersOf(inDegree, id, dependencies[id]);
        left := left - {id};
      }
    }

    method CountProvidersOf(inDegree: map<PluginID, int>, id: PluginID, caps: seq<Capability>)
      returns (r: map<PluginID, int>)
      requires id in inDegree
      ensures r == inDegree[id := inDegree[id] + |ProvidersOf(byCapability, caps)|]
    {
      r := inDegree;
      for i := 0 to |caps|
        invariant id in r && r == inDegree[id := r[id]]
        invariant r[id] == inDegree[id] + |ProvidersUpTo(byCapability, caps, i)|
      {
        r := r[id := r[id] + |Offering(byCapability, caps[i])|];
      }
    }

    /** The plugins of degree zero, in whatever order the map is walked. */
    method QueueFree(inDegree: map<PluginID, int>) returns (queue: seq<PluginID>)
      ensures Distinct(queue) && forall id :: id in queue <==> id in inDegree && inDegree[id] == 0
    {
      queue := [];
      var left := inDegree.Keys;
      while left != {}
        invariant left <= inDegree.Keys && Distinct(queue)
        invariant forall id :: id in queue <==> id in inDegree && id !in left && inDegree[id] == 0
      {
        var id :| id in left;
        if inDegree[id] == 0 {
          queue := queue + [id];
        }
        left := left - {id};
      }
    }

    /** The queue loop, for any waiting lists. */
    method RunQueue(degrees: map<PluginID, int>, first: seq<PluginID>) returns (order: seq<PluginID>)
      ensures order == Drain(dependents, Kahn(degrees, first, [])).order
    {
      var inDegree, queue := degrees, first;
      order := [];
      while queue != []
        invariant Drain(dependents, Kahn(inDegree, queue, order)) == Drain(dependents, Kahn(degrees, first, []))
        decreases Work(Kahn(inDegree, queue, order))
      {
        ghost var k := Kahn(inDegree, queue, order);
        PopShrinks(dependents, k);
        var id := queue[0];
        queue := queue[1..];
        order := order + [id];
        ghost var k0 := Kahn(inDegree, queue, order);
        var waiting := Waiting(dependents, id);
        for i := 0 to |waiting|
          invariant Kahn(inDegree, queue, order) == Relax(k0, waiting[..i])
        {
          var d := waiting[i];
          inDegree := inDegree[d := (if d in inDegree then inDegree[d] else 0) - 1];
          if inDegree[d] == 0 {
            queue := queue + [d];
          }
          assert waiting[..i + 1][..i] == waiting[..i];
        }
        assert waiting[..|waiting|] == waiting;
      }
    }

    /** The degrees, the queue of free plugins, and the queue loop. */
    method ComputeOrder() returns (order: seq<PluginID>)
      requires dependencies.Keys <= byID.Keys
      ensures exists k :: Starts(Resolved(), k) && order == Drain(dependents, k).order
    {
      var inDegree := CountProviders();
      var queue := QueueFree(inDegree);
      order := RunQueue(inDegree, queue);
      StartsAt(Resolved(), Kahn(inDegree, queue, []));
    }

    /**
     Validates the dependencies and computes the startup order. As long as every plugin with edges
     from earlier calls has a single provider, and so on every first call, the outcome is exact: an
     unmet dependency if there is one, else a cycle if there is one, else an order that starts every
     provider before the plugins requiring it. On any call the loop ends, a failure leaves the
     previous order in place, and the verdict is exact in terms of the edges recorded before.
     */
    method BuildDependencyGraph() returns (err: Option<RegistryError>)
      requires Valid()
      modifies this`dependents, this`sortedStartup
      ensures Valid() && (err.Some? ==> sortedStartup == old(sortedStartup))
      ensures (err.Some? && err.value.NoProviders?) <==> SomeUnmet(Catalog())
      ensures err.Some? && err.value.NoProviders? ==> Unmet(Catalog(), err.value.id, err.value.capability)
      ensures !SomeUnmet(Catalog()) ==> Grew(old(dependents), dependents, dependencies, byCapability, {})
      ensures !SomeUnmet(Catalog()) ==>
                exists k :: Starts(Resolved(), k) && Verdict(dependents, k, |byID|, err, sortedStartup)
      ensures !SomeUnmet(Catalog()) ==> Judged(Resolved(), Catalog(), old(dependents), err, sortedStartup)
      ensures Repeatable(byID, old(dependents)) ==> Exact(Catalog(), err, sortedStartup)
    {
      err := RecordEdges();
      if err.Some? {
        return;
      }
      var order := ComputeOrder();
      ghost var k :| Starts(Resolved(), k) && order == Drain(dependents, k).order;
      if |order| != |byID| {
        err := Some(DependencyCycle);
      } else {
        sortedStartup := order;
        err := None;
      }
      assert Verdict(dependents, k, |byID|, err, sortedStartup);
      BuildIsJudged(byID, byCapability, old(dependents), dependents, k, err, sortedStartup);
      if Repeatable(byID, old(dependents)) {
        BuildIsExact(byID, byCapability, old(dependents), dependents, k, err, sortedStartup);
      }
    }
  }

  /** What a call reports when the queue loop has run. */
  ghost predicate Verdict(deps: Dependents, k: Kahn, n: nat, err: Option<RegistryError>, startup: seq<PluginID>) {
    var order := Drain(deps, k).order;
    if |order| == n then err == None && startup == order else err == Some(DependencyCycle)
  }

  /** A cycle is reported exactly if there is one and nothing is unmet, and an order only if it is right. */
  ghost predicate Exact(cat: Catalog, err: Option<RegistryError>, startup: seq<PluginID>) {
    && (err == Some(DependencyCycle) <==> !SomeUnmet(cat) && RequirementCycle(cat))
    && (err == None ==> StartsInOrder(cat, startup))
  }

  /**
   The verdict of any call, whatever was recorded before: a cycle is reported if and only if some
   part of the graph blocks the rest, which needs a cycle; otherwise all plugins are listed once,
   none ahead of more provider entries than it got earlier edges from those started.
   */
  ghost predicate Judged(g: Graph, cat: Catalog, before: Dependents, err: Option<RegistryError>,
                         startup: seq<PluginID>) {
    && (err == None || err == Some(DependencyCycle))
    && (err == Some(DependencyCycle) <==> exists out :: Blocks(g, before, out))
    && (err == Some(DependencyCycle) ==> RequirementCycle(cat))
    && (err == None ==> AllOnce(g, startup) && EnoughStarted(g, before, startup))
  }

  lemma StartsAt(g: Graph, k: Kahn)
    requires k.inDegree == (map id | id in g :: |g[id]|) && k.order == []
    requires Distinct(k.queue) && forall id :: id in k.queue <==> id in k.inDegree && k.inDegree[id] == 0
    ensures Starts(g, k)
  {
  }

  lemma ResolvedIsRequired(table: Table, index: Index, d: PluginID, p: PluginID)
    requires Consistent(table, index) && d in table
    ensures p in Resolution(table, index, Declared(table))[d] <==> Requires(Descriptors(table), d, p)
  {
    var caps := table[d].descriptor.dependsOn;
    var g := Resolution(table, index, Declared(table));
    assert g[d] == ProvidersOf(index, caps);
    ProvidersOfMember(index, caps, |caps|, p);
    if p in ProvidersOf(index, caps) {
      var i, r :| 0 <= i < |caps| && Offers(index, caps[i], r) && r.descriptor.id == p;
      assert caps[i] in Descriptors(table)[d].dependsOn && caps[i] in Descriptors(table)[p].capabilities;
    }
    if Requires(Descriptors(table), d, p) {
      var cap :| cap in caps && cap in table[p].descriptor.capabilities;
      assert Offers(index, cap, table[p]);
    }
  }

  lemma ResolvedIsRequirement(table: Table, index: Index)
    requires Consistent(table, index)
    ensures SameEdges(Resolution(table, index, Declared(table)), Descriptors(table))
  {
    forall d, p | d in table
      ensures p in Resolution(table, index, Declared(table))[d] <==> Requires(Descriptors(table), d, p)
    {
      ResolvedIsRequired(table, index, d, p);
    }
  }

  /** What one plugin's dependencies record are requirements of that plugin. */
  lemma RecordedAreKnown(table: Table, index: Index, deps: Dependents, id: PluginID, n: nat)
    requires Consistent(table, index) && Known(table, deps) && id in Declared(table) && n <= |Declared(table)[id]|
    ensures Known(table, AddCaps(deps, index, Declared(table)[id], n, id))
  {
    var caps := Declared(table)[id];
    var after := AddCaps(deps, index, caps, n, id);
    forall p, d | Edges(after, p, d) > 0 ensures Requires(Descriptors(table), d, p) {
      AddCapsCounts(deps, index, caps, n, id, p, d);
      if Edges(deps, p, d) == 0 {
        ProvidersOfMember(index, caps, n, p);
        var i, r :| 0 <= i < n && Offers(index, caps[i], r) && r.descriptor.id == p;
        assert caps[i] in Descriptors(table)[d].dependsOn && caps[i] in Descriptors(table)[p].capabilities;
      }
    }
  }

  lemma {:induction false} AllAlike(ps: seq<PluginID>, p: PluginID)
    requires forall q :: q in ps ==> q == p
    ensures multiset(ps)[p] == |ps|
  {
    if ps != [] {
      assert ps == [ps[0]] + ps[1..];
      assert ps[0] in ps && forall q :: q in ps[1..] ==> q in ps;
      AllAlike(ps[1..], p);
    }
  }

  /** A recording adds the edges of the resolved graph once. */
  lemma GrewIsRecordedOnce(table: Table, index: Index, before: Dependents, deps: Dependents)
    requires Known(table, before) && Grew(before, deps, Declared(table), index, {})
    ensures RecordedOnce(Resolution(table, index, Declared(table)), before, deps)
  {
    var needs := Declared(table);
    var g := Resolution(table, index, needs);
    forall p, d ensures Edges(deps, p, d) == Edges(before, p, d) + if d in g then multiset(g[d])[p] else 0 {
      assert Edges(deps, p, d) == Edges(before, p, d) + NeedEdges(needs, index, p, d);
    }
    forall p, d | d in Waiting(deps, p) ensures d in g {
      assert Edges(deps, p, d) > 0;
    }
    forall p, d | d in g
      ensures multiset(Waiting(deps, p))[d] == multiset(Waiting(before, p))[d] + multiset(g[d])[p]
    {
      assert Edges(deps, p, d) == Edges(before, p, d) + multiset(g[d])[p];
    }
  }

  /** After a recording on top of repeatable edges there are enough edges and none too many. */
  lemma BuildIsAdequate(table: Table, index: Index, before: Dependents, deps: Dependents)
    requires Consistent(table, index) && Known(table, before) && Repeatable(table, before)
    requires Grew(before, deps, Declared(table), index, {})
    ensures Adequate(Resolution(table, index, Declared(table)), deps)
  {
    var g := Resolution(table, index, Declared(table));
    GrewIsRecordedOnce(table, index, before, deps);
    forall p, d | p in g && d in g ensures Enough(g, deps, p, d) {
      if Edges(before, p, d) > 0 {
        forall q | q in g[d] ensures q == p {
          ResolvedIsRequired(table, index, d, q);
        }
        AllAlike(g[d], p);
      }
    }
  }

  lemma BuildIsJudged(table: Table, index: Index, before: Dependents, deps: Dependents, k: Kahn,
                      err: Option<RegistryError>, startup: seq<PluginID>)
    requires Consistent(table, index) && Known(table, before)
    requires Grew(before, deps, Declared(table), index, {})
    requires Starts(Resolution(table, index, Declared(table)), k) && Verdict(deps, k, |table|, err, startup)
    ensures Judged(Resolution(table, index, Declared(table)), Descriptors(table), before, err, startup)
  {
    var g := Resolution(table, index, Declared(table));
    ResolvedIsRequirement(table, index);
    GrewIsRecordedOnce(table, index, before, deps);
    RequirementsAreClosed(g, Descriptors(table));
    RepeatedVerdict(g, before, deps, k);
    SameCycles(g, Descriptors(table));
    assert g.Keys == table.Keys && |g| == |g.Keys| && |table| == |table.Keys|;
  }

  lemma RequirementsAreClosed(g: Graph, cat: Catalog)
    requires SameEdges(g, cat)
    ensures Closed(g)
  {
  }

  lemma BuildIsExact(table: Table, index: Index, before: Dependents, deps: Dependents, k: Kahn,
                     err: Option<RegistryError>, startup: seq<PluginID>)
    requires Consistent(table, index) && Known(table, before) && Repeatable(table, before)
    requires Grew(before, deps, Declared(table), index, {}) && !SomeUnmet(Descriptors(table))
    requires Starts(Resolution(table, index, Declared(table)), k) && Verdict(deps, k, |table|, err, startup)
    ensures Exact(Descriptors(table), err, startup)
  {
    var g := Resolution(table, index, Declared(table));
    ResolvedIsRequirement(table, index);
    BuildIsAdequate(table, index, before, deps);
    AdequateDrain(g, Descriptors(table), deps, k);
    assert g.Keys == table.Keys && |g| == |g.Keys| && |table| == |table.Keys|;
  }

  ghost predicate SameEdges(g: Graph, cat: Catalog) {
    g.Keys == cat.Keys && forall d, p :: d in g ==> (p in g[d] <==> Requires(cat, d, p))
  }

  lemma AdequateDrain(g: Graph, cat: Catalog, deps: Dependents, k: Kahn)
    requires SameEdges(g, cat) && Adequate(g, deps) && Starts(g, k)
    ensures var order := Drain(deps, k).order;
            && (|order| == |g| ==> StartsInOrder(cat, order))
            && (|order| != |g| <==> RequirementCycle(cat))
  {
    assert Closed(g);
    DrainIsCorrect(g, deps, k);
    SameOrders(g, cat, Drain(deps, k).order);
    SameCycles(g, cat);
  }

  lemma SameOrders(g: Graph, cat: Catalog, order: seq<PluginID>)
    requires SameEdges(g, cat)
    ensures IsStartupOrder(g, order) ==> StartsInOrder(cat, order)
  {
    if IsStartupOrder(g, order) {
      forall i, j | 0 <= i < |order| && 0 <= j < |order| && Requires(cat, order[j], order[i]) ensures i < j {
        assert order[i] in order[..j];
        var m :| 0 <= m < j && order[m] == order[i];
      }
    }
  }

  lemma SameCycles(g: Graph, cat: Catalog)
    requires SameEdges(g, cat)
    ensures Cyclic(g) <==> RequirementCycle(cat)
  {
    if Cyclic(g) {
      var walk :| IsCycle(g, walk);
      forall i | 1 <= i < |walk| ensures RequiresPrevious(cat, walk, i) {
        assert Feeds(g, walk, i);
      }
    }
    if RequirementCycle(cat) {
      var walk: seq<PluginID> :| |walk| >= 2 && walk[0] == walk[|walk| - 1]
        && forall i :: 1 <= i < |walk| ==> RequiresPrevious(cat, walk, i);
      forall i | 1 <= i < |walk| ensures Feeds(g, walk, i) {
        assert RequiresPrevious(cat, walk, i);
      }
      assert IsCycle(g, walk);
    }
  }

  // ---------------------------------------------------------------- why a repeated call can go wrong

  /** One pop when d waits twice: the queue gains d if it had one or two edges left. */
  lemma DoubledPop(deps: Dependents, k: Kahn, id: PluginID, rest: seq<PluginID>, d: PluginID)
    requires k.queue == [id] + rest && Waiting(deps, id) == [d] + [d] && d in k.inDegree
    ensures Pop(deps, k) == Kahn(k.inDegree[d := k.inDegree[d] - 2],
                                 if 1 <= k.inDegree[d] <= 2 then rest + [d] else rest,
                                 k.order + [id])
  {
    assert k.queue[1..] == rest;
    var k0 := Kahn(k.inDegree, rest, k.order + [id]);
    assert ([d] + [d])[..1] == [d] && [d][..0] == [];
    assert Relax(k0, [d]) == RelaxOne(k0, d);
    assert Pop(deps, k) == RelaxOne(RelaxOne(k0, d), d);
    assert k.inDegree[d := k.inDegree[d] - 1][d := k.inDegree[d] - 2] == k.inDegree[d := k.inDegree[d] - 2];
  }

  /** A waiting list on which one plugin stands twice and nobody else. */
  lemma OnlyTwice(deps: Dependents, p: PluginID, d: PluginID)
    requires forall q :: Edges(deps, p, q) == if q == d then 2 else 0
    ensures Waiting(deps, p) == [d] + [d]
  {
    var s := Waiting(deps, p);
    assert forall q :: multiset(s)[q] == Edges(deps, p, q);
    assert multiset(s) == multiset([d] + [d]);
    assert |multiset(s)| == |s|;
    assert forall i :: 0 <= i < |s| ==> s[i] in multiset(s);
  }

  lemma Nobody(deps: Dependents, p: PluginID)
    requires forall q :: Edges(deps, p, q) == 0
    ensures Waiting(deps, p) == []
  {
    var s := Waiting(deps, p);
    assert |s| > 0 ==> multiset(s)[s[0]] > 0;
    assert |s| > 0 ==> Edges(deps, p, s[0]) > 0;
  }

  /** Two successful recordings of the same registry. */
  ghost predicate RecordedTwice(table: Table, index: Index, twice: Dependents) {
    exists once :: Grew(map[], once, Declared(table), index, {}) && Grew(once, twice, Declared(table), index, {})
  }

  lemma TwiceTheEdges(table: Table, index: Index, twice: Dependents, p: PluginID, d: PluginID)
    requires RecordedTwice(table, index, twice)
    ensures Edges(twice, p, d) == 2 * NeedEdges(Declared(table), index, p, d)
  {
    var once :| Grew(map[], once, Declared(table), index, {}) && Grew(once, twice, Declared(table), index, {});
    assert Waiting(map[], p) == [];
    assert Edges(once, p, d) == NeedEdges(Declared(table), index, p, d);
    assert Edges(twice, p, d) == Edges(once, p, d) + NeedEdges(Declared(table), index, p, d);
  }

  lemma OneProvider(index: Index, cap: Capability, r: Registration)
    requires cap in index && index[cap] == [r]
    ensures ProvidersOf(index, [cap]) == [r.descriptor.id]
  {
    assert ProvidersUpTo(index, [cap], 0) == [];
    assert Ids([r]) == [r.descriptor.id];
  }

  lemma TwoProviders(index: Index, x: Capability, y: Capability, r: Registration, s: Registration)
    requires x in index && index[x] == [r] && y in index && index[y] == [s]
    ensures ProvidersOf(index, [x, y]) == [r.descriptor.id, s.descriptor.id]
  {
    var caps := [x, y];
    assert ProvidersUpTo(index, caps, 0) == [];
    assert Ids([r]) == [r.descriptor.id] && Ids([s]) == [s.descriptor.id];
    assert ProvidersUpTo(index, caps, 1) == [r.descriptor.id];
  }

  /** a offers x, b offers y and requires z, c offers z, d requires x and y. */
  ghost predicate LateProvider(table: Table, index: Index, a: PluginID, b: PluginID, c: PluginID, d: PluginID,
                               x: Capability, y: Capability, z: Capability) {
    && a != b && a != c && a != d && b != c && b != d && c != d && x != y && x != z && y != z
    && table.Keys == {a, b, c, d}
    && table[a].descriptor == Descriptor(a, "", [x], []) && table[b].descriptor == Descriptor(b, "", [y], [z])
    && table[c].descriptor == Descriptor(c, "", [z], []) && table[d].descriptor == Descriptor(d, "", [], [x, y])
    && index.Keys == {x, y, z} && index[x] == [table[a]] && index[y] == [table[b]] && index[z] == [table[c]]
  }

  lemma LateProviderResolves(table: Table, index: Index, a: PluginID, b: PluginID, c: PluginID, d: PluginID,
                             x: Capability, y: Capability, z: Capability)
    requires LateProvider(table, index, a, b, c, d, x, y, z)
    ensures Declared(table) == map[b := [z], d := [x, y]]
    ensures Resolution(table, index, Declared(table)) == map[a := [], b := [c], c := [], d := [a, b]]
  {
    OneProvider(index, z, table[c]);
    TwoProviders(index, x, y, table[a], table[b]);
  }

  lemma LateProviderWaits(table: Table, index: Index, deps: Dependents,
                          a: PluginID, b: PluginID, c: PluginID, d: PluginID,
                          x: Capability, y: Capability, z: Capability)
    requires LateProvider(table, index, a, b, c, d, x, y, z) && RecordedTwice(table, index, deps)
    ensures Waiting(deps, a) == [d] + [d] && Waiting(deps, b) == [d] + [d] && Waiting(deps, c) == [b] + [b]
    ensures Waiting(deps, d) == []
  {
    forall p, q ensures Edges(deps, p, q) == 2 * LateEdges(a, b, c, d, p, q) {
      TwiceTheEdges(table, index, deps, p, q);
      LateProviderNeeds(table, index, a, b, c, d, x, y, z, p, q);
    }
    LateLists(deps, a, b, c, d);
  }

  lemma LateLists(deps: Dependents, a: PluginID, b: PluginID, c: PluginID, d: PluginID)
    requires a != b && a != c && a != d && b != c && b != d && c != d
    requires forall p, q :: Edges(deps, p, q) == 2 * LateEdges(a, b, c, d, p, q)
    ensures Waiting(deps, a) == [d] + [d] && Waiting(deps, b) == [d] + [d] && Waiting(deps, c) == [b] + [b]
    ensures Waiting(deps, d) == []
  {
    OnlyTwice(deps, a, d);
    OnlyTwice(deps, b, d);
    OnlyTwice(deps, c, b);
    Nobody(deps, d);
  }

  function LateEdges(a: PluginID, b: PluginID, c: PluginID, d: PluginID, p: PluginID, q: PluginID): nat {
    if (q == d && (p == a || p == b)) || (q == b && p == c) then 1 else 0
  }

  lemma LateProviderNeeds(table: Table, index: Index, a: PluginID, b: PluginID, c: PluginID, d: PluginID,
                          x: Capability, y: Capability, z: Capability, p: PluginID, q: PluginID)
    requires LateProvider(table, index, a, b, c, d, x, y, z)
    ensures NeedEdges(Declared(table), index, p, q) == LateEdges(a, b, c, d, p, q)
  {
    LateProviderResolves(table, index, a, b, c, d, x, y, z);
    OneProvider(index, z, table[c]);
    TwoProviders(index, x, y, table[a], table[b]);
    assert multiset([a, b])[p] == if p == a || p == b then 1 else 0;
    assert multiset([c])[p] == if p == c then 1 else 0;
  }

  /**
   A second call records every edge again while the degrees are counted once. For some order of
   the map it lists every plugin, hence succeeds, with d ahead of its provider b.
   */
  lemma SecondBuildMisorders(table: Table, index: Index, deps: Dependents,
                             a: PluginID, b: PluginID, c: PluginID, d: PluginID,
                             x: Capability, y: Capability, z: Capability) returns (k: Kahn)
    requires LateProvider(table, index, a, b, c, d, x, y, z) && RecordedTwice(table, index, deps)
    ensures Starts(Resolution(table, index, Declared(table)), k)
    ensures Verdict(deps, k, |table|, None, [a, c, d, b]) && !StartsInOrder(Descriptors(table), [a, c, d, b])
  {
    LateProviderResolves(table, index, a, b, c, d, x, y, z);
    k := Kahn(map[a := 0, b := 1, c := 0, d := 2], [a] + [c], []);
    LateProviderStarts(a, b, c, d, k);
    LateProviderWaits(table, index, deps, a, b, c, d, x, y, z);
    LateProviderDrains(a, b, c, d, deps, k);
    FourPlugins(table, a, b, c, d);
    Misordered(Descriptors(table), a, b, c, d, y);
  }

  lemma FourPlugins(table: Table, a: PluginID, b: PluginID, c: PluginID, d: PluginID)
    requires a != b && a != c && a != d && b != c && b != d && c != d && table.Keys == {a, b, c, d}
    ensures |table| == 4
  {
    assert |table| == |table.Keys| && |{a, b, c, d}| == 4;
  }

  lemma LateProviderStarts(a: PluginID, b: PluginID, c: PluginID, d: PluginID, k: Kahn)
    requires a != b && a != c && a != d && b != c && b != d && c != d
    requires k == Kahn(map[a := 0, b := 1, c := 0, d := 2], [a] + [c], [])
    ensures Starts(map[a := [], b := [c], c := [], d := [a, b]], k)
  {
    var g: Graph := map[a := [], b := [c], c := [], d := [a, b]];
    assert k.inDegree == map q | q in g :: |g[q]|;
  }

  lemma Misordered(cat: Catalog, a: PluginID, b: PluginID, c: PluginID, d: PluginID, y: Capability)
    requires b in cat && d in cat && y in cat[d].dependsOn && y in cat[b].capabilities
    ensures !StartsInOrder(cat, [a, c, d, b])
  {
    var order := [a, c, d, b];
    assert Requires(cat, order[2], order[3]);
  }

  lemma LateProviderDrains(a: PluginID, b: PluginID, c: PluginID, d: PluginID, deps: Dependents, k: Kahn)
    requires a != b && a != c && a != d && b != c && b != d && c != d
    requires Waiting(deps, a) == [d] + [d] && Waiting(deps, b) == [d] + [d] && Waiting(deps, c) == [b] + [b]
    requires Waiting(deps, d) == []
    requires k.inDegree == map[a := 0, b := 1, c := 0, d := 2] && k.queue == [a] + [c] && k.order == []
    ensures Drain(deps, k).order == [a, c, d, b]
  {
    DoubledPop(deps, k, a, [c], d);
    var t1 := Pop(deps, k);
    DoubledPop(deps, t1, c, [d], b);
    var t2 := Pop(deps, t1);
    LateProviderEnds(b, d, deps, t2);
    assert Drain(deps, k) == Drain(deps, t1) == Drain(deps, t2);
  }

  lemma LateProviderEnds(b: PluginID, d: PluginID, deps: Dependents, k: Kahn)
    requires b != d && k.queue == [d] + [b] && Waiting(deps, d) == [] && d in k.inDegree && k.inDegree[d] == 0
    requires Waiting(deps, b) == [d] + [d]
    ensures Drain(deps, k).order == k.order + [d] + [b]
  {
    assert k.queue[1..] == [b] + [];
    var t := Pop(deps, k);
    assert t == Kahn(k.inDegree, [b] + [], k.order + [d]);
    DoubledPop(deps, t, b, [], d);
    assert Drain(deps, k) == Drain(deps, t) == Pop(deps, t);
  }

  /** a offers x and requires both x and y, b offers y: a requires itself. */
  ghost predicate SelfProvider(table: Table, index: Index, a: PluginID, b: PluginID, x: Capability, y: Capability) {
    && a != b && x != y && table.Keys == {a, b}
    && table[a].descriptor == Descriptor(a, "", [x], [x, y]) && table[b].descriptor == Descriptor(b, "", [y], [])
    && index.Keys == {x, y} && index[x] == [table[a]] && index[y] == [table[b]]
  }

  lemma SelfProviderResolves(table: Table, index: Index, a: PluginID, b: PluginID, x: Capability, y: Capability)
    requires SelfProvider(table, index, a, b, x, y)
    ensures Declared(table) == map[a := [x, y]] && ProvidersOf(index, [x, y]) == [a, b]
    ensures Resolution(table, index, Declared(table)) == map[a := [a, b], b := []]
  {
    TwoProviders(index, x, y, table[a], table[b]);
  }

  lemma SelfProviderNeeds(table: Table, index: Index, a: PluginID, b: PluginID, x: Capability, y: Capability,
                          p: PluginID, q: PluginID)
    requires SelfProvider(table, index, a, b, x, y) && (p == a || p == b)
    ensures NeedEdges(Declared(table), index, p, q) == if q == a then 1 else 0
  {
    SelfProviderResolves(table, index, a, b, x, y);
    assert multiset([a, b])[p] == 1;
  }

  lemma SelfProviderWaits(table: Table, index: Index, deps: Dependents, a: PluginID, b: PluginID,
                          x: Capability, y: Capability)
    requires SelfProvider(table, index, a, b, x, y) && RecordedTwice(table, index, deps)
    ensures Resolution(table, index, Declared(table)) == map[a := [a, b], b := []]
    ensures Waiting(deps, a) == [a] + [a] && Waiting(deps, b) == [a] + [a]
  {
    SelfProviderResolves(table, index, a, b, x, y);
    forall p, q | p == a || p == b ensures Edges(deps, p, q) == if q == a then 2 else 0 {
      TwiceTheEdges(table, index, deps, p, q);
      SelfProviderNeeds(table, index, a, b, x, y, p, q);
    }
    OnlyTwice(deps, a, a);
    OnlyTwice(deps, b, a);
  }

  /** The requirements have a cycle, and the second call succeeds. */
  lemma SecondBuildAcceptsCycle(table: Table, index: Index, deps: Dependents, a: PluginID, b: PluginID,
                                x: Capability, y: Capability) returns (k: Kahn)
    requires SelfProvider(table, index, a, b, x, y) && RecordedTwice(table, index, deps)
    ensures Starts(Resolution(table, index, Declared(table)), k) && RequirementCycle(Descriptors(table))
    ensures Verdict(deps, k, |table|, None, [b, a])
  {
    SelfProviderWaits(table, index, deps, a, b, x, y);
    k := Kahn(map[a := 2, b := 0], [b] + [], []);
    SelfProviderDrains(a, b, deps, k);
    assert |table| == |table.Keys| && |{a, b}| == 2;
    var cat := Descriptors(table);
    assert x in cat[a].dependsOn && x in cat[a].capabilities;
    assert RequiresPrevious(cat, [a, a], 1);
  }

  lemma SelfProviderDrains(a: PluginID, b: PluginID, deps: Dependents, k: Kahn)
    requires a != b && Waiting(deps, a) == [a] + [a] && Waiting(deps, b) == [a] + [a]
    requires k == Kahn(map[a := 2, b := 0], [b] + [], [])
    ensures Starts(map[a := [a, b], b := []], k) && Drain(deps, k).order == [b, a]
  {
    var g: Graph := map[a := [a, b], b := []];
    assert k.inDegree == map q | q in g :: |g[q]|;
    DoubledPop(deps, k, b, [], a);
    var t := Pop(deps, k);
    DoubledPop(deps, t, a, [], a);
    assert Drain(deps, k) == Drain(deps, t) == Pop(deps, t);
  }

  /** Such a registry comes about by registering four plugins and building twice. */
  method BuildTwice() returns (r: Registry, ghost k: Kahn)
    ensures fresh(r) && r.Valid() && Starts(r.Resolved(), k)
    ensures exists order :: Verdict(r.dependents, k, |r.byID|, None, order) && !StartsInOrder(r.Catalog(), order)
  {
    var a, b, c, d := PluginID("a"), PluginID("b"), PluginID("c"), PluginID("d");
    var x, y, z := Capability("x"), Capability("y"), Capability("z");
    assert a.name[0] == 'a' && b.name[0] == 'b' && c.name[0] == 'c' && d.name[0] == 'd';
    assert x.name[0] == 'x' && y.name[0] == 'y' && z.name[0] == 'z';
    r := RegisterLateProvider(a, b, c, d, x, y, z);
    AllMet(r.byID, r.byCapability, a, b, c, d, x, y, z);
    RecordTwice(r);
    k := SecondBuildMisorders(r.byID, r.byCapability, r.dependents, a, b, c, d, x, y, z);
  }

  /** And such a cyclic one by registering two. */
  method BuildCyclicTwice() returns (r: Registry, ghost k: Kahn)
    ensures fresh(r) && r.Valid() && Starts(r.Resolved(), k) && RequirementCycle(r.Catalog())
    ensures exists order :: Verdict(r.dependents, k, |r.byID|, None, order)
  {
    var a, b, x, y := PluginID("a"), PluginID("b"), Capability("x"), Capability("y");
    assert a.name[0] == 'a' && b.name[0] == 'b' && x.name[0] == 'x' && y.name[0] == 'y';
    r := new Registry();
    var err := RegisterOne(r, Descriptor(a, "", [x], [x, y]), x);
    err := RegisterOne(r, Descriptor(b, "", [y], []), y);
    assert SelfProvider(r.byID, r.byCapability, a, b, x, y);
    assert x in r.Catalog()[a].capabilities && y in r.Catalog()[b].capabilities;
    RecordTwice(r);
    k := SecondBuildAcceptsCycle(r.byID, r.byCapability, r.dependents, a, b, x, y);
  }

  method RecordTwice(r: Registry)
    requires r.Valid() && r.dependents == map[] && !SomeUnmet(r.Catalog())
    modifies r`dependents, r`sortedStartup
    ensures r.Valid() && RecordedTwice(r.byID, r.byCapability, r.dependents)
  {
    Record(r);
    ghost var once := r.dependents;
    Record(r);
    assert Grew(map[], once, Declared(r.byID), r.byCapability, {});
  }

  method Record(r: Registry)
    requires r.Valid() && !SomeUnmet(r.Catalog())
    modifies r`dependents, r`sortedStartup
    ensures r.Valid() && Grew(old(r.dependents), r.dependents, Declared(r.byID), r.byCapability, {})
  {
    var err := r.BuildDependencyGraph();
  }

  method RegisterLateProvider(a: PluginID, b: PluginID, c: PluginID, d: PluginID,
                              x: Capability, y: Capability, z: Capability) returns (r: Registry)
    requires a != b && a != c && a != d && b != c && b != d && c != d && x != y && x != z && y != z
    ensures fresh(r) && r.Valid() && r.dependents == map[]
    ensures LateProvider(r.byID, r.byCapability, a, b, c, d, x, y, z)
  {
    r := new Registry();
    var err := RegisterOne(r, Descriptor(a, "", [x], []), x);
    err := RegisterOne(r, Descriptor(b, "", [y], [z]), y);
    RegisterRest(r, a, b, c, d, x, y, z);
  }

  method RegisterRest(r: Registry, a: PluginID, b: PluginID, c: PluginID, d: PluginID,
                      x: Capability, y: Capability, z: Capability)
    requires a != b && a != c && a != d && b != c && b != d && c != d && x != y && x != z && y != z
    requires r.Valid() && r.dependents == map[] && r.byID.Keys == {a, b} && r.byCapability.Keys == {x, y}
    requires r.byID[a].descriptor == Descriptor(a, "", [x], []) && r.byID[b].descriptor == Descriptor(b, "", [y], [z])
    requires r.byCapability[x] == [r.byID[a]] && r.byCapability[y] == [r.byID[b]]
    modifies r
    ensures r.Valid() && r.dependents == map[]
    ensures LateProvider(r.byID, r.byCapability, a, b, c, d, x, y, z)
  {
    var err := RegisterOne(r, Descriptor(c, "", [z], []), z);
    err := r.Register(Descriptor(d, "", [], [x, y]));
    assert r.Catalog()[d] == Descriptor(d, "", [], [x, y]);
  }

  /** Registering a plugin with one capability that nobody offers yet. */
  method RegisterOne(r: Registry, d: Descriptor, cap: Capability) returns (err: Option<RegistryError>)
    requires r.Valid() && d.id !in r.byID && d.capabilities == [cap] && cap !in r.byCapability
    modifies r
    ensures r.Valid() && r.dependents == old(r.dependents) && err == None
    ensures d.id in r.byID && r.byID == old(r.byID)[d.id := r.byID[d.id]] && r.byID[d.id].descriptor == d
    ensures r.byCapability == old(r.byCapability)[cap := [r.byID[d.id]]]
  {
    err := r.Register(d);
    assert r.Catalog()[d.id] == d;
    var reg := r.byID[d.id];
    assert Listed(old(r.byCapability), reg, [cap], 0) == old(r.byCapability);
    assert Offering(old(r.byCapability), cap) + [reg] == [reg];
  }

  lemma AllMet(table: Table, index: Index, a: PluginID, b: PluginID, c: PluginID, d: PluginID,
               x: Capability, y: Capability, z: Capability)
    requires LateProvider(table, index, a, b, c, d, x, y, z)
    ensures !SomeUnmet(Descriptors(table))
  {
    var cat := Descriptors(table);
    assert x in cat[a].capabilities && y in cat[b].capabilities && z in cat[c].capabilities;
  }
}
