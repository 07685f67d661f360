/** Building the stack document: overlays merged in sequence, then the passes, each a loop that
    rewrites the merged document in place. */
module ComposeBuilder {
  import opened Wrappers
  import opened Sequences
  import opened Compose
  import opened ComposeBuild

  /** The base with the layers merged over it in turn. */
  function Layered(base: Value, layers: seq<Value>): (r: Value)
    requires base.Dict? && forall l | l in layers :: l.Dict?
    ensures r.Dict?
  {
    if layers == [] then base else Merge(Layered(base, layers[..|layers| - 1]), layers[|layers| - 1])
  }

  /** The layer says nothing about the path: it has no value there, and none on the way that is not a
      mapping. */
  predicate Silent(layer: Value, path: seq<Key>) {
    At(layer, path) == None && !CutOff(layer, path)
  }

  predicate SilentFrom(layers: seq<Value>, from: nat, path: seq<Key>) {
    forall j | from <= j < |layers| :: Silent(layers[j], path)
  }

  /** The last layer that says something about a path has the last word. */
  ghost predicate LastWins(base: Value, layers: seq<Value>, doc: Value) {
    && (forall i, path | 0 <= i < |layers| && SilentFrom(layers, i + 1, path) && At(layers[i], path).Some? ::
          !At(layers[i], path).value.Dict? ==> At(doc, path) == At(layers[i], path))
    && (forall i, path | 0 <= i < |layers| && SilentFrom(layers, i + 1, path) && CutOff(layers[i], path) :: At(doc, path) == None)
    && (forall path | SilentFrom(layers, 0, path) :: At(doc, path) == At(base, path))
  }

  lemma {:induction false} LayerWins(base: Value, layers: seq<Value>, i: nat, path: seq<Key>)
    requires base.Dict? && (forall l | l in layers :: l.Dict?) && i < |layers| && SilentFrom(layers, i + 1, path)
    ensures At(layers[i], path).Some? && !At(layers[i], path).value.Dict? ==> At(Layered(base, layers), path) == At(layers[i], path)
    ensures CutOff(layers[i], path) ==> At(Layered(base, layers), path) == None
    decreases |layers|
  {
    var last, before := layers[|layers| - 1], layers[..|layers| - 1];
    MergeAt(Layered(base, before), last, path);
    if i < |layers| - 1 {
      assert Silent(layers[|layers| - 1], path);
      assert forall j | i + 1 <= j < |before| :: before[j] == layers[j];
      LayerWins(base, before, i, path);
    } else if CutOff(last, path) {
      CutOffHasNothing(last, path);
    }
  }

  lemma {:induction false} CutOffHasNothing(v: Value, path: seq<Key>)
    requires CutOff(v, path)
    ensures At(v, path) == None
    decreases |path|
  {
    if v.Dict? { CutOffHasNothing(v.vals[path[0]], path[1..]); }
  }

  lemma {:induction false} BaseShowsThrough(base: Value, layers: seq<Value>, path: seq<Key>)
    requires base.Dict? && (forall l | l in layers :: l.Dict?) && SilentFrom(layers, 0, path)
    ensures At(Layered(base, layers), path) == At(base, path)
    decreases |layers|
  {
    if layers != [] {
      var last, before := layers[|layers| - 1], layers[..|layers| - 1];
      assert Silent(layers[|layers| - 1], path);
      assert forall j | 0 <= j < |before| :: before[j] == layers[j];
      MergeAt(Layered(base, before), last, path);
      BaseShowsThrough(base, before, path);
    }
  }

  lemma LayeredLastWins(base: Value, layers: seq<Value>)
    requires base.Dict? && forall l | l in layers :: l.Dict?
    ensures LastWins(base, layers, Layered(base, layers))
  {
    forall i: nat, path | i < |layers| && SilentFrom(layers, i + 1, path)
      ensures At(layers[i], path).Some? && !At(layers[i], path).value.Dict? ==> At(Layered(base, layers), path) == At(layers[i], path)
      ensures CutOff(layers[i], path) ==> At(Layered(base, layers), path) == None
    {
      LayerWins(base, layers, i, path);
    }
    forall path | SilentFrom(layers, 0, path) ensures At(Layered(base, layers), path) == At(base, path) {
      BaseShowsThrough(base, layers, path);
    }
  }

  // ---- Loops over the entries of a dictionary ---------------------------------------------------

  /** `f` applied to the first `n` entries. */
  function OnFirst(d: Value, n: nat, f: Value -> Value): (r: Value)
    requires d.Dict? && n <= |d.keys| && forall k | k in d.keys :: k in d.vals
    ensures r.Dict? && r.keys == d.keys && r.vals.Keys == d.vals.Keys
  {
    if n == 0 then d else Assign(OnFirst(d, n - 1, f), d.keys[n - 1], f(d.vals[d.keys[n - 1]]))
  }

  lemma {:induction false} OnFirstEntry(d: Value, n: nat, f: Value -> Value, i: nat)
    requires d.Dict? && WellFormed(d) && n <= |d.keys| && i < |d.keys|
    ensures d.keys[i] in d.vals
    ensures OnFirst(d, n, f).vals[d.keys[i]] == if i < n then f(d.vals[d.keys[i]]) else d.vals[d.keys[i]]
  {
    if n > 0 {
      OnFirstEntry(d, n - 1, f, i);
      assert i != n - 1 ==> d.keys[i] != d.keys[n - 1];
    }
  }

  /** The entry whose turn it is has not been touched yet. */
  lemma OnFirstNext(d: Value, n: nat, f: Value -> Value)
    requires d.Dict? && WellFormed(d) && n < |d.keys|
    ensures d.keys[n] in d.vals && OnFirst(d, n, f).vals[d.keys[n]] == d.vals[d.keys[n]]
    ensures OnFirst(d, n + 1, f) == Assign(OnFirst(d, n, f), d.keys[n], f(d.vals[d.keys[n]]))
  {
    OnFirstEntry(d, n, f, n);
  }

  lemma OnAllEntries(d: Value, f: Value -> Value)
    requires d.Dict? && WellFormed(d)
    ensures OnFirst(d, |d.keys|, f) == OnEach(d, f)
  {
    forall k | k in d.vals ensures OnFirst(d, |d.keys|, f).vals[k] == f(d.vals[k]) {
      assert k in d.keys;
      var i :| 0 <= i < |d.keys| && d.keys[i] == k;
      OnFirstEntry(d, |d.keys|, f, i);
    }
    SameDict(OnFirst(d, |d.keys|, f), OnEach(d, f));
  }

  /** What such a loop goes through, from the dictionary to all its entries done. */
  ghost predicate InStages(stages: seq<Value>, d: Value, f: Value -> Value) {
    && d.Dict? && |stages| == |d.keys| + 1 && stages[0] == d
    && forall i | 0 <= i < |d.keys| :: Stage(stages, d, f, i)
  }

  ghost predicate Stage(stages: seq<Value>, d: Value, f: Value -> Value, i: nat)
    requires d.Dict? && i < |d.keys| && |stages| == |d.keys| + 1
  {
    && stages[i].Dict? && d.keys[i] in stages[i].vals
    && stages[i + 1] == Assign(stages[i], d.keys[i], f(stages[i].vals[d.keys[i]]))
  }

  lemma Stages(d: Value, f: Value -> Value) returns (stages: seq<Value>)
    requires d.Dict? && WellFormed(d)
    ensures InStages(stages, d, f) && stages[|d.keys|] == OnEach(d, f)
  {
    stages := AllFirst(d, f);
    StagesFit(d, f, stages);
    OnAllEntries(d, f);
  }

  lemma AllFirst(d: Value, f: Value -> Value) returns (stages: seq<Value>)
    requires d.Dict? && forall k | k in d.keys :: k in d.vals
    ensures |stages| == |d.keys| + 1 && forall i | 0 <= i <= |d.keys| :: stages[i] == OnFirst(d, i, f)
  {
    stages := seq(|d.keys| + 1, i requires 0 <= i <= |d.keys| => OnFirst(d, i, f));
  }

  lemma StagesFit(d: Value, f: Value -> Value, stages: seq<Value>)
    requires d.Dict? && WellFormed(d) && |stages| == |d.keys| + 1
    requires forall i | 0 <= i <= |d.keys| :: stages[i] == OnFirst(d, i, f)
    ensures InStages(stages, d, f)
  {
    forall i | 0 <= i < |d.keys| ensures Stage(stages, d, f, i) {
      StageOf(d, f, stages, i);
    }
  }

  lemma StageOf(d: Value, f: Value -> Value, stages: seq<Value>, i: nat)
    requires d.Dict? && WellFormed(d) && i < |d.keys| && |stages| == |d.keys| + 1
    requires stages[i] == OnFirst(d, i, f) && stages[i + 1] == OnFirst(d, i + 1, f)
    ensures Stage(stages, d, f, i)
  {
    OnFirstNext(d, i, f);
  }

  // ---- The passes keep documents well formed --------------------------------------------------------

  lemma {:induction false} DropKeyDistinct(keys: seq<Key>, k: Key)
    requires Distinct(keys)
    ensures Distinct(DropKey(keys, k))
    decreases |keys|
  {
    if keys != [] {
      DropKeyDistinct(keys[1..], k);
      DropKeyMember(keys[1..], k, keys[0]);
    }
  }

  lemma PoppedWellFormed(d: Value, k: Key)
    requires d.Dict? && WellFormed(d)
    ensures WellFormed(Popped(d, k))
  {
    DropKeyDistinct(d.keys, k);
    forall x { DropKeyMember(d.keys, k, x); }
  }

  lemma AssignWellFormed(d: Value, k: Key, v: Value)
    requires d.Dict? && WellFormed(d) && WellFormed(v)
    ensures WellFormed(Assign(d, k, v))
  {
    if k !in d.vals {
      assert k !in d.keys;
    }
  }

  lemma EntryPassesWellFormed(v: Value, expr: Value)
    requires WellFormed(v) && WellFormed(expr)
    ensures WellFormed(FreeNetwork(v)) && WellFormed(LocalBuild(v)) && WellFormed(Baked(v, expr)) && WellFormed(BakedService(v, expr))
  {
    if v.Dict? {
      PoppedWellFormed(v, NAME);
      AssignWellFormed(v, PULL_POLICY, Text("never"));
      BakedWellFormed(v, expr);
      if BUILD in v.vals {
        BakedWellFormed(v.vals[BUILD], expr);
        AssignWellFormed(v, BUILD, Baked(v.vals[BUILD], expr));
      }
    }
  }

  lemma BakedWellFormed(v: Value, expr: Value)
    requires WellFormed(v) && WellFormed(expr)
    ensures WellFormed(Baked(v, expr))
  {
    if Versioned(v) {
      AssignWellFormed(v.vals[ARGS], CANCAN_VERSION, expr);
      AssignWellFormed(v, ARGS, Assign(v.vals[ARGS], CANCAN_VERSION, expr));
    }
  }

  lemma OnSectionWellFormed(root: Value, section: Key, f: Value -> Value)
    requires root.Dict? && WellFormed(root) && forall v | WellFormed(v) :: WellFormed(f(v))
    ensures WellFormed(OnSection(root, section, f))
  {
    if section in root.vals && root.vals[section].Dict? {
      var d := root.vals[section];
      assert WellFormed(OnEach(d, f));
      AssignWellFormed(root, section, OnEach(d, f));
    }
  }

  // ---- The builder ---------------------------------------------------------------------------------------

  class Builder {
    var merged: Value

    constructor (base: Value)
      ensures merged == base
    {
      merged := base;
    }

    method PopVersion()
      requires merged.Dict? && WellFormed(merged)
      modifies this
      ensures merged == Popped(old(merged), VERSION) && WellFormed(merged)
    {
      PoppedWellFormed(merged, VERSION);
      merged := Popped(merged, VERSION);
    }

    static method PopName(network: Value) returns (r: Value)
      ensures r == FreeNetwork(network)
    {
      r := network;
      if network.Dict? && !(EXTERNAL in network.vals && Truthy(network.vals[EXTERNAL])) {
        r := Popped(network, NAME);
      }
    }

    static method WithoutNames(before: Value) returns (networks: Value)
      requires before.Dict? && WellFormed(before)
      ensures networks == OnEach(before, FreeNetwork)
    {
      ghost var stages := Stages(before, FreeNetwork);
      networks := before;
      var i := 0;
      while i < |before.keys|
        invariant 0 <= i <= |before.keys|
        invariant networks == stages[i]
      {
        var key := before.keys[i];
        assert Stage(stages, before, FreeNetwork, i);
        var network := PopName(networks.vals[key]);
        networks := Assign(networks, key, network);
        i := i + 1;
      }
    }

    method FreeNetworkNames()
      requires merged.Dict? && WellFormed(merged)
      modifies this
      ensures merged == OnSection(old(merged), NETWORKS, FreeNetwork) && merged.Dict? && WellFormed(merged)
    {
      forall v | WellFormed(v) ensures WellFormed(FreeNetwork(v)) { EntryPassesWellFormed(v, Null); }
      OnSectionWellFormed(merged, NETWORKS, FreeNetwork);
      if NETWORKS in merged.vals && merged.vals[NETWORKS].Dict? {
        var networks := WithoutNames(merged.vals[NETWORKS]);
        merged := Assign(merged, NETWORKS, networks);
      }
    }

    static method NeverPulled(before: Value) returns (svc: Value)
      ensures svc == LocalBuild(before)
    {
      svc := before;
      if svc.Dict? && BUILD in svc.vals && PULL_POLICY !in svc.vals {
        svc := Assign(svc, PULL_POLICY, Text("never"));
      }
    }

    static method WithPolicies(before: Value) returns (services: Value)
      requires before.Dict? && WellFormed(before)
      ensures services == OnEach(before, LocalBuild)
    {
      ghost var stages := Stages(before, LocalBuild);
      services := before;
      var i := 0;
      while i < |before.keys|
        invariant 0 <= i <= |before.keys|
        invariant services == stages[i]
      {
        var key := before.keys[i];
        assert Stage(stages, before, LocalBuild, i);
        var svc := NeverPulled(services.vals[key]);
        services := Assign(services, key, svc);
        i := i + 1;
      }
    }

    method PreferLocalBuilds()
      requires merged.Dict? && WellFormed(merged)
      modifies this
      ensures merged == OnSection(old(merged), SERVICES, LocalBuild) && merged.Dict? && WellFormed(merged)
    {
      forall v | WellFormed(v) ensures WellFormed(LocalBuild(v)) { EntryPassesWellFormed(v, Null); }
      OnSectionWellFormed(merged, SERVICES, LocalBuild);
      if SERVICES in merged.vals && merged.vals[SERVICES].Dict? {
        var services := WithPolicies(merged.vals[SERVICES]);
        merged := Assign(merged, SERVICES, services);
      }
    }

    static method PatchArgs(container: Value, expr: Value) returns (r: Value)
      ensures r == Baked(container, expr)
    {
      r := container;
      if container.Dict? && ARGS in container.vals {
        var args := container.vals[ARGS];
        if args.Dict? && CANCAN_VERSION in args.vals {
          r := Assign(container, ARGS, Assign(args, CANCAN_VERSION, expr));
        }
      }
    }

    method ApplyVersionDefault(expr: Value)
      requires merged.Dict? && WellFormed(merged) && WellFormed(expr)
      modifies this
      ensures merged == OnSection(BakeAnchors(old(merged), expr), SERVICES, ServiceBaker(expr))
      ensures merged.Dict? && WellFormed(merged)
    {
      PatchAnchors(expr);
      PatchServices(expr);
    }

    method PatchAnchors(expr: Value)
      requires merged.Dict? && WellFormed(merged) && WellFormed(expr)
      modifies this
      ensures merged == BakeAnchors(old(merged), expr) && merged.Dict? && WellFormed(merged)
    {
      var before := merged;
      var i := 0;
      while i < |before.keys|
        invariant 0 <= i <= |before.keys|
        invariant merged.Dict? && merged.keys == before.keys && merged.vals.Keys == before.vals.Keys
        invariant forall j | 0 <= j < |before.keys| :: merged.vals[before.keys[j]] ==
                    if j < i && IsAnchor(before.keys[j]) then Baked(before.vals[before.keys[j]], expr) else before.vals[before.keys[j]]
      {
        var key := before.keys[i];
        if IsAnchor(key) {
          var patched := PatchArgs(merged.vals[key], expr);
          merged := Assign(merged, key, patched);
        }
        i := i + 1;
      }
      forall k | k in before.vals ensures merged.vals[k] == if IsAnchor(k) then Baked(before.vals[k], expr) else before.vals[k] {
        assert k in before.keys;
        var j :| 0 <= j < |before.keys| && before.keys[j] == k;
      }
      SameDict(merged, BakeAnchors(before, expr));
      forall k | k in before.vals ensures WellFormed(Baked(before.vals[k], expr)) { BakedWellFormed(before.vals[k], expr); }
    }

    static method PatchService(svc: Value, expr: Value) returns (r: Value)
      ensures r == ServiceBaker(expr)(svc)
    {
      r := svc;
      if svc.Dict? && BUILD in svc.vals {
        var patched := PatchArgs(svc.vals[BUILD], expr);
        r := Assign(svc, BUILD, patched);
      }
    }

    static method WithVersions(before: Value, expr: Value) returns (services: Value)
      requires before.Dict? && WellFormed(before)
      ensures services == OnEach(before, ServiceBaker(expr))
    {
      ghost var stages := Stages(before, ServiceBaker(expr));
      services := before;
      var i := 0;
      while i < |before.keys|
        invariant 0 <= i <= |before.keys|
        invariant services == stages[i]
      {
        var key := before.keys[i];
        assert Stage(stages, before, ServiceBaker(expr), i);
        var svc := PatchService(services.vals[key], expr);
        services := Assign(services, key, svc);
        i := i + 1;
      }
    }

    method PatchServices(expr: Value)
      requires merged.Dict? && WellFormed(merged) && WellFormed(expr)
      modifies this
      ensures merged == OnSection(old(merged), SERVICES, ServiceBaker(expr)) && merged.Dict? && WellFormed(merged)
    {
      forall v | WellFormed(v) ensures WellFormed(ServiceBaker(expr)(v)) { EntryPassesWellFormed(v, expr); }
      OnSectionWellFormed(merged, SERVICES, ServiceBaker(expr));
      if SERVICES in merged.vals && merged.vals[SERVICES].Dict? {
        var services := WithVersions(merged.vals[SERVICES], expr);
        merged := Assign(merged, SERVICES, services);
      }
    }

    /** The layers are those of the service file and the override files that exist, in order. */
    method Build(layers: seq<Value>, expr: Value)
      requires merged.Dict? && WellFormed(merged) && WellFormed(expr)
      requires forall l | l in layers :: l.Dict? && WellFormed(l)
      modifies this
      ensures merged == Normalised(Layered(old(merged), layers), expr) && WellFormed(merged)
      ensures exists doc: Value :: doc.Dict? && merged == Normalised(doc, expr) && LastWins(old(merged), layers, doc)
    {
      var i := 0;
      assert layers[..0] == [];
      while i < |layers|
        invariant 0 <= i <= |layers|
        invariant merged == Layered(old(merged), layers[..i]) && WellFormed(merged)
      {
        merged := DeepMerge(merged, layers[i]);
        assert layers[..i + 1][..i] == layers[..i];
        i := i + 1;
      }
      assert layers[..|layers|] == layers;
      LayeredLastWins(old(merged), layers);
      PopVersion();
      FreeNetworkNames();
      PreferLocalBuilds();
      ApplyVersionDefault(expr);
    }
  }
}
