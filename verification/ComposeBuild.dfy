/** The passes that normalise a merged compose document before it is written out. */
module ComposeBuild {
  import opened Compose

  const VERSION := Name("version")
  const NETWORKS := Name("networks")
  const SERVICES := Name("services")
  const NAME := Name("name")
  const EXTERNAL := Name("external")
  const BUILD := Name("build")
  const PULL_POLICY := Name("pull_policy")
  const ARGS := Name("args")
  const CANCAN_VERSION := Name("CANCAN_VERSION")

  predicate IsAnchor(k: Key) {
    k.Name? && |k.name| >= 2 && k.name[0] == 'x' && k.name[1] == '-'
  }

  predicate Truthy(v: Value) {
    match v
    case Null => false
    case Bool(b) => b
    case Num(n) => n != 0
    case Text(s) => s != ""
    case List(items) => items != []
    case Dict(keys, _) => keys != []
  }

  function DropKey(keys: seq<Key>, k: Key): seq<Key> {
    if keys == [] then []
    else if keys[0] == k then DropKey(keys[1..], k)
    else [keys[0]] + DropKey(keys[1..], k)
  }

  function Popped(d: Value, k: Key): Value
    requires d.Dict?
  {
    Dict(DropKey(d.keys, k), d.vals - {k})
  }

  // ---- What each pass does to one entry ----------------------------------------------------------

  predicate Nameable(n: Value) {
    n.Dict? && !(EXTERNAL in n.vals && Truthy(n.vals[EXTERNAL]))
  }

  /** A network that is not external loses its fixed name. */
  function FreeNetwork(n: Value): Value {
    if Nameable(n) then Popped(n, NAME) else n
  }

  predicate Unpolicied(svc: Value) {
    svc.Dict? && BUILD in svc.vals && PULL_POLICY !in svc.vals
  }

  /** A service with a build section is not pulled, unless it says otherwise itself. */
  function LocalBuild(svc: Value): Value {
    if Unpolicied(svc) then Assign(svc, PULL_POLICY, Text("never")) else svc
  }

  predicate Versioned(container: Value) {
    container.Dict? && ARGS in container.vals && container.vals[ARGS].Dict? && CANCAN_VERSION in container.vals[ARGS].vals
  }

  /** A version argument that is there gets the default expression. */
  function Baked(container: Value, expr: Value): Value {
    if Versioned(container) then Assign(container, ARGS, Assign(container.vals[ARGS], CANCAN_VERSION, expr)) else container
  }

  function BakedService(svc: Value, expr: Value): Value {
    if svc.Dict? && BUILD in svc.vals then Assign(svc, BUILD, Baked(svc.vals[BUILD], expr)) else svc
  }

  function ServiceBaker(expr: Value): Value -> Value {
    svc => BakedService(svc, expr)
  }

  // ---- The same in plain terms -----------------------------------------------------------------------

  /** Null, false, zero, or nothing in it. */
  predicate Empty(v: Value) {
    v == Null || v == Bool(false) || v == Num(0) || v == Text("") || v == List([]) || (v.Dict? && |v.keys| == 0)
  }

  /** A network keeps its name exactly if its `external` is there and neither null, false, zero nor
      empty; a service gets `never` exactly if it has a build and no policy at all, not even an empty
      one; the version argument is written exactly where it already is. */
  lemma WhatThePassesAsk(n: Value, svc: Value, container: Value, expr: Value)
    ensures n.Dict? && (EXTERNAL !in n.vals || Empty(n.vals[EXTERNAL])) ==>
      FreeNetwork(n).Dict? && FreeNetwork(n).vals == n.vals - {NAME}
    ensures n.Dict? && EXTERNAL in n.vals && !Empty(n.vals[EXTERNAL]) ==> FreeNetwork(n) == n
    ensures !n.Dict? ==> FreeNetwork(n) == n
    ensures svc.Dict? && BUILD in svc.vals && PULL_POLICY !in svc.vals ==>
      LocalBuild(svc).Dict? && LocalBuild(svc).vals == svc.vals[PULL_POLICY := Text("never")] && LocalBuild(svc).keys == svc.keys + [PULL_POLICY]
    ensures !svc.Dict? || BUILD !in svc.vals || PULL_POLICY in svc.vals ==> LocalBuild(svc) == svc
    ensures container.Dict? && ARGS in container.vals && container.vals[ARGS].Dict? && CANCAN_VERSION in container.vals[ARGS].vals ==>
      Baked(container, expr).Dict? && ARGS in Baked(container, expr).vals && Baked(container, expr).vals[ARGS].Dict? &&
      Baked(container, expr).vals[ARGS].vals == container.vals[ARGS].vals[CANCAN_VERSION := expr]
    ensures !container.Dict? || ARGS !in container.vals || !container.vals[ARGS].Dict? || CANCAN_VERSION !in container.vals[ARGS].vals ==>
      Baked(container, expr) == container
  {
  }

  // ---- The passes ----------------------------------------------------------------------------------

  function OnEach(d: Value, f: Value -> Value): Value
    requires d.Dict?
  {
    Dict(d.keys, map k | k in d.vals :: f(d.vals[k]))
  }

  function OnSection(root: Value, section: Key, f: Value -> Value): Value
    requires root.Dict?
  {
    if section in root.vals && root.vals[section].Dict? then Assign(root, section, OnEach(root.vals[section], f)) else root
  }

  function BakeAnchors(root: Value, expr: Value): Value
    requires root.Dict?
  {
    Dict(root.keys, map k | k in root.vals :: if IsAnchor(k) then Baked(root.vals[k], expr) else root.vals[k])
  }

  function Normalised(root: Value, expr: Value): (r: Value)
    requires root.Dict?
    ensures r.Dict?
  {
    var r1 := Popped(root, VERSION);
    var r2 := OnSection(r1, NETWORKS, FreeNetwork);
    var r3 := OnSection(r2, SERVICES, LocalBuild);
    var r4 := BakeAnchors(r3, expr);
    OnSection(r4, SERVICES, ServiceBaker(expr))
  }

  /** What becomes of one top-level entry. */
  function Entry(k: Key, v: Value, expr: Value): Value {
    if k == NETWORKS && v.Dict? then OnEach(v, FreeNetwork)
    else if k == SERVICES && v.Dict? then OnEach(v, svc => BakedService(LocalBuild(svc), expr))
    else if IsAnchor(k) then Baked(v, expr)
    else v
  }

  lemma {:induction false} DropKeyMember(keys: seq<Key>, k: Key, x: Key)
    ensures x in DropKey(keys, k) <==> x in keys && x != k
    ensures k !in keys ==> DropKey(keys, k) == keys
    decreases |keys|
  {
    if keys != [] { DropKeyMember(keys[1..], k, x); }
  }

  lemma ServicesTwice(v: Value, expr: Value)
    requires v.Dict?
    ensures OnEach(OnEach(v, LocalBuild), ServiceBaker(expr)) == OnEach(v, svc => BakedService(LocalBuild(svc), expr))
  {
    SameDict(OnEach(OnEach(v, LocalBuild), ServiceBaker(expr)), OnEach(v, svc => BakedService(LocalBuild(svc), expr)));
  }

  lemma OnSectionEntries(root: Value, section: Key, f: Value -> Value)
    requires root.Dict?
    ensures var r := OnSection(root, section, f);
            && r.Dict? && r.keys == root.keys && r.vals.Keys == root.vals.Keys
            && (forall k | k in root.vals :: r.vals[k] ==
                  if k == section && root.vals[k].Dict? then OnEach(root.vals[k], f) else root.vals[k])
  {
  }

  lemma EntryInOrder(k: Key, v1: Value, v2: Value, v3: Value, v4: Value, v5: Value, expr: Value)
    requires v2 == if k == NETWORKS && v1.Dict? then OnEach(v1, FreeNetwork) else v1
    requires v3 == if k == SERVICES && v2.Dict? then OnEach(v2, LocalBuild) else v2
    requires v4 == if IsAnchor(k) then Baked(v3, expr) else v3
    requires v5 == if k == SERVICES && v4.Dict? then OnEach(v4, ServiceBaker(expr)) else v4
    ensures v5 == Entry(k, v1, expr)
  {
    if k == SERVICES && v1.Dict? { ServicesTwice(v1, expr); }
  }

  lemma EntriesInOrder(root: Value, r1: Value, r2: Value, r3: Value, r4: Value, r5: Value, expr: Value)
    requires root.Dict? && r1.Dict? && r2.Dict? && r3.Dict? && r4.Dict? && r5.Dict?
    requires r1.vals == root.vals - {VERSION}
    requires r2.vals.Keys == r1.vals.Keys && r3.vals.Keys == r2.vals.Keys && r4.vals.Keys == r3.vals.Keys && r5.vals.Keys == r4.vals.Keys
    requires forall k | k in r1.vals :: r2.vals[k] == if k == NETWORKS && r1.vals[k].Dict? then OnEach(r1.vals[k], FreeNetwork) else r1.vals[k]
    requires forall k | k in r2.vals :: r3.vals[k] == if k == SERVICES && r2.vals[k].Dict? then OnEach(r2.vals[k], LocalBuild) else r2.vals[k]
    requires forall k | k in r3.vals :: r4.vals[k] == if IsAnchor(k) then Baked(r3.vals[k], expr) else r3.vals[k]
    requires forall k | k in r4.vals :: r5.vals[k] == if k == SERVICES && r4.vals[k].Dict? then OnEach(r4.vals[k], ServiceBaker(expr)) else r4.vals[k]
    ensures forall k | k in root.vals && k != VERSION :: r5.vals[k] == Entry(k, root.vals[k], expr)
  {
    forall k | k in root.vals && k != VERSION ensures r5.vals[k] == Entry(k, root.vals[k], expr) {
      assert k in r1.vals && r1.vals[k] == root.vals[k];
      EntryInOrder(k, r1.vals[k], r2.vals[k], r3.vals[k], r4.vals[k], r5.vals[k], expr);
    }
  }

  ghost predicate EntryByEntry(root: Value, r: Value, expr: Value) {
    && root.Dict? && r.Dict? && r.keys == DropKey(root.keys, VERSION) && r.vals.Keys == root.vals.Keys - {VERSION}
    && forall k | k in root.vals && k != VERSION :: r.vals[k] == Entry(k, root.vals[k], expr)
  }

  /** The passes act on each top-level entry by itself. */
  lemma NormalisedEntries(root: Value, expr: Value)
    requires root.Dict?
    ensures EntryByEntry(root, Normalised(root, expr), expr)
  {
    var r1 := Popped(root, VERSION);
    var r2 := OnSection(r1, NETWORKS, FreeNetwork);
    var r3 := OnSection(r2, SERVICES, LocalBuild);
    var r4 := BakeAnchors(r3, expr);
    var r5 := OnSection(r4, SERVICES, ServiceBaker(expr));
    OnSectionEntries(r1, NETWORKS, FreeNetwork);
    OnSectionEntries(r2, SERVICES, LocalBuild);
    OnSectionEntries(r4, SERVICES, ServiceBaker(expr));
    EntriesInOrder(root, r1, r2, r3, r4, r5, expr);
  }

  // ---- Running the passes again ----------------------------------------------------------------------

  lemma {:induction false} DropKeyTwice(keys: seq<Key>, k: Key)
    ensures DropKey(DropKey(keys, k), k) == DropKey(keys, k)
    decreases |keys|
  {
    if keys != [] { DropKeyTwice(keys[1..], k); }
  }

  lemma FreeNetworkTwice(n: Value)
    ensures FreeNetwork(FreeNetwork(n)) == FreeNetwork(n)
  {
    if Nameable(n) {
      DropKeyTwice(n.keys, NAME);
      assert n.vals - {NAME} - {NAME} == n.vals - {NAME};
    }
  }

  lemma BakedTwice(c: Value, expr: Value)
    ensures Baked(Baked(c, expr), expr) == Baked(c, expr)
  {
    if Versioned(c) {
      var args := c.vals[ARGS];
      var baked := Assign(args, CANCAN_VERSION, expr);
      assert Assign(baked, CANCAN_VERSION, expr) == baked;
      assert Baked(c, expr).vals[ARGS] == baked;
    }
  }

  function Service(svc: Value, expr: Value): Value {
    BakedService(LocalBuild(svc), expr)
  }

  lemma ServiceTwice(svc: Value, expr: Value)
    ensures Service(Service(svc, expr), expr) == Service(svc, expr)
  {
    if svc.Dict? && BUILD in svc.vals {
      var l := LocalBuild(svc);
      assert l.vals[BUILD] == svc.vals[BUILD] && PULL_POLICY in l.vals;
      BakedTwice(svc.vals[BUILD], expr);
      var s := Service(svc, expr);
      assert LocalBuild(s) == s;
      assert Assign(s, BUILD, s.vals[BUILD]) == s;
    }
  }

  lemma OnEachTwice(d: Value, f: Value -> Value)
    requires d.Dict? && forall v :: f(f(v)) == f(v)
    ensures OnEach(OnEach(d, f), f) == OnEach(d, f)
  {
    SameDict(OnEach(OnEach(d, f), f), OnEach(d, f));
  }

  lemma EntryTwice(k: Key, v: Value, expr: Value)
    ensures Entry(k, Entry(k, v, expr), expr) == Entry(k, v, expr)
  {
    if k == NETWORKS && v.Dict? {
      forall n { FreeNetworkTwice(n); }
      OnEachTwice(v, FreeNetwork);
    } else if k == SERVICES && v.Dict? {
      var f := svc => BakedService(LocalBuild(svc), expr);
      forall svc ensures f(f(svc)) == f(svc) { ServiceTwice(svc, expr); }
      OnEachTwice(v, f);
    } else if IsAnchor(k) {
      BakedTwice(v, expr);
    }
  }

  /** Normalising a normalised document changes nothing. */
  lemma NormalisedTwice(root: Value, expr: Value)
    requires root.Dict?
    ensures Normalised(Normalised(root, expr), expr) == Normalised(root, expr)
  {
    var once := Normalised(root, expr);
    NormalisedEntries(root, expr);
    NormalisedEntries(once, expr);
    DropKeyTwice(root.keys, VERSION);
    var twice := Normalised(once, expr);
    forall k | k in once.vals ensures k in twice.vals && twice.vals[k] == once.vals[k] {
      EntryTwice(k, root.vals[k], expr);
    }
    SameDict(twice, once);
  }

  // ---- What the passes leave alone -----------------------------------------------------------------------

  /** What is seen at a path: nothing, a mapping, or a value that is not a mapping. */
  datatype Sight = Nothing | Mapping | Leaf(v: Value)

  function Seen(v: Value, path: seq<Key>): Sight {
    match At(v, path)
    case None => Nothing
    case Some(x) => if x.Dict? then Mapping else Leaf(x)
  }

  lemma Down(v: Value, path: seq<Key>)
    requires path != []
    ensures Seen(v, path) == if v.Dict? && path[0] in v.vals then Seen(v.vals[path[0]], path[1..]) else Nothing
  {
  }

  /** The paths below a network at which a pass may change something. */
  predicate NetworkTouched(n: Value, path: seq<Key>) {
    path != [] && path[0] == NAME && Nameable(n)
  }

  lemma NetworkFrame(n: Value, path: seq<Key>)
    ensures Seen(FreeNetwork(n), path) == if NetworkTouched(n, path) then Nothing else Seen(n, path)
  {
    if path != [] {
      Down(n, path);
      Down(FreeNetwork(n), path);
    }
  }

  /** Two path elements lead to an existing version argument. */
  predicate ArgTouched(c: Value, path: seq<Key>) {
    Versioned(c) && |path| >= 2 && path[0] == ARGS && path[1] == CANCAN_VERSION
  }

  lemma ArgFrame(c: Value, expr: Value, path: seq<Key>)
    ensures Seen(Baked(c, expr), path) == if ArgTouched(c, path) then Seen(expr, path[2..]) else Seen(c, path)
  {
    if Versioned(c) && path != [] {
      Down(c, path);
      Down(Baked(c, expr), path);
      if path[0] == ARGS && path[1..] != [] {
        Down(c.vals[ARGS], path[1..]);
        Down(Assign(c.vals[ARGS], CANCAN_VERSION, expr), path[1..]);
        assert path[1..][1..] == path[2..];
      }
    }
  }

  lemma PolicyFrame(svc: Value, path: seq<Key>)
    ensures Seen(LocalBuild(svc), path) ==
            if Unpolicied(svc) && path != [] && path[0] == PULL_POLICY then Seen(Text("never"), path[1..]) else Seen(svc, path)
  {
    if path != [] {
      Down(svc, path);
      Down(LocalBuild(svc), path);
    }
  }

  lemma BuildFrame(svc: Value, expr: Value, path: seq<Key>)
    ensures Seen(BakedService(svc, expr), path) ==
            if svc.Dict? && BUILD in svc.vals && path != [] && path[0] == BUILD && ArgTouched(svc.vals[BUILD], path[1..])
            then Seen(expr, path[3..]) else Seen(svc, path)
  {
    if svc.Dict? && BUILD in svc.vals && path != [] {
      Down(svc, path);
      Down(BakedService(svc, expr), path);
      if path[0] == BUILD {
        ArgFrame(svc.vals[BUILD], expr, path[1..]);
        if |path| >= 3 { assert path[1..][2..] == path[3..]; }
      }
    }
  }

  /** What the passes put at a path below a service. */
  function ServiceSight(svc: Value, expr: Value, path: seq<Key>): Sight {
    if Unpolicied(svc) && path != [] && path[0] == PULL_POLICY then Seen(Text("never"), path[1..])
    else if svc.Dict? && BUILD in svc.vals && path != [] && path[0] == BUILD && ArgTouched(svc.vals[BUILD], path[1..])
    then Seen(expr, path[3..])
    else Seen(svc, path)
  }

  lemma ServiceFrame(svc: Value, expr: Value, path: seq<Key>)
    ensures Seen(Service(svc, expr), path) == ServiceSight(svc, expr, path)
  {
    PolicyFrame(svc, path);
    BuildFrame(LocalBuild(svc), expr, path);
    if svc.Dict? && BUILD in svc.vals {
      assert LocalBuild(svc).vals[BUILD] == svc.vals[BUILD];
    }
  }

  /** What is seen at a path of the normalised document, in terms of the document it was made from.
      Every case but the last names a change; the last one says that nothing else changes. */
  function NormalisedSight(root: Value, expr: Value, path: seq<Key>): Sight
    requires root.Dict?
  {
    if path == [] then Mapping
    else if path[0] == VERSION then Nothing
    else if path[0] in root.vals && path[0] == NETWORKS && root.vals[NETWORKS].Dict? && |path| >= 2 && path[1] in root.vals[NETWORKS].vals
            && NetworkTouched(root.vals[NETWORKS].vals[path[1]], path[2..]) then Nothing
    else if path[0] in root.vals && path[0] == SERVICES && root.vals[SERVICES].Dict? && |path| >= 2 && path[1] in root.vals[SERVICES].vals
      then ServiceSight(root.vals[SERVICES].vals[path[1]], expr, path[2..])
    else if path[0] in root.vals && IsAnchor(path[0]) && ArgTouched(root.vals[path[0]], path[1..]) then Seen(expr, path[3..])
    else Seen(root, path)
  }

  lemma EntryFrame(root: Value, expr: Value, path: seq<Key>)
    requires root.Dict? && path != [] && path[0] in root.vals && path[0] != VERSION
    ensures Seen(Entry(path[0], root.vals[path[0]], expr), path[1..]) == NormalisedSight(root, expr, path)
  {
    var k, v, rest := path[0], root.vals[path[0]], path[1..];
    Down(root, path);
    if (k == NETWORKS || k == SERVICES) && v.Dict? {
      if rest != [] {
        assert rest[1..] == path[2..];
        Down(v, rest);
        Down(Entry(k, v, expr), rest);
        if rest[0] in v.vals {
          NetworkFrame(v.vals[rest[0]], rest[1..]);
          ServiceFrame(v.vals[rest[0]], expr, rest[1..]);
        }
      }
    } else if IsAnchor(k) {
      ArgFrame(v, expr, rest);
      if |rest| >= 2 { assert rest[2..] == path[3..]; }
    }
  }

  /** The frame of the passes, at every path. */
  lemma NormalisedFrame(root: Value, expr: Value, path: seq<Key>)
    requires root.Dict?
    ensures Seen(Normalised(root, expr), path) == NormalisedSight(root, expr, path)
  {
    NormalisedEntries(root, expr);
    if path != [] {
      Down(root, path);
      Down(Normalised(root, expr), path);
      if path[0] in root.vals && path[0] != VERSION {
        EntryFrame(root, expr, path);
      }
    }
  }

  // ---- The frame at the paths that the passes are about ----------------------------------------------

  lemma AnchorMeans(rest: string)
    ensures IsAnchor(Name("x-" + rest))
    ensures forall k: Key | IsAnchor(k) :: k.Name? && k.name == "x-" + k.name[2..]
  {
    assert ("x-" + rest)[0] == 'x' && ("x-" + rest)[1] == '-';
  }

  lemma SeenAt(v: Value, k: Key, rest: seq<Key>)
    requires v.Dict? && k in v.vals
    ensures Seen(v, [k] + rest) == Seen(v.vals[k], rest)
  {
    assert ([k] + rest)[1..] == rest;
    Down(v, [k] + rest);
  }

  /** The version is gone. */
  lemma VersionGone(root: Value, expr: Value, rest: seq<Key>)
    requires root.Dict?
    ensures Seen(Normalised(root, expr), [Name("version")] + rest) == Nothing
  {
    NormalisedFrame(root, expr, [Name("version")] + rest);
  }

  /** The name of a network is gone unless the network says that it is external. */
  lemma NetworkNameGone(root: Value, expr: Value, n: Key)
    requires root.Dict? && Name("networks") in root.vals && root.vals[Name("networks")].Dict?
    requires n in root.vals[Name("networks")].vals
    ensures var net := root.vals[Name("networks")].vals[n];
      Seen(Normalised(root, expr), [Name("networks"), n, Name("name")]) ==
      if net.Dict? && (Name("external") !in net.vals || Empty(net.vals[Name("external")])) then Nothing else Seen(net, [Name("name")])
  {
    var net, path := root.vals[Name("networks")].vals[n], [Name("networks"), n, Name("name")];
    NormalisedFrame(root, expr, path);
    assert path[2..] == [Name("name")] && path == [Name("networks")] + ([n] + [Name("name")]);
    SeenAt(root, Name("networks"), [n] + [Name("name")]);
    SeenAt(root.vals[Name("networks")], n, [Name("name")]);
  }

  /** The policy of a service is `never` if it has a build and no policy, otherwise what it was. */
  lemma PolicyWritten(root: Value, expr: Value, s: Key)
    requires root.Dict? && Name("services") in root.vals && root.vals[Name("services")].Dict?
    requires s in root.vals[Name("services")].vals
    ensures var svc := root.vals[Name("services")].vals[s];
      Seen(Normalised(root, expr), [Name("services"), s, Name("pull_policy")]) ==
      if svc.Dict? && Name("build") in svc.vals && Name("pull_policy") !in svc.vals then Leaf(Text("never")) else Seen(svc, [Name("pull_policy")])
  {
    var svc, path := root.vals[Name("services")].vals[s], [Name("services"), s, Name("pull_policy")];
    NormalisedFrame(root, expr, path);
    assert path[2..] == [Name("pull_policy")] && path[2..][1..] == [];
  }

  /** The version argument of a build that has one is the default expression. */
  lemma ServiceVersionWritten(root: Value, expr: Value, s: Key)
    requires root.Dict? && Name("services") in root.vals && root.vals[Name("services")].Dict? && !expr.Dict?
    requires s in root.vals[Name("services")].vals && root.vals[Name("services")].vals[s].Dict?
    requires Name("build") in root.vals[Name("services")].vals[s].vals
    requires var build := root.vals[Name("services")].vals[s].vals[Name("build")];
      build.Dict? && Name("args") in build.vals && build.vals[Name("args")].Dict? && Name("CANCAN_VERSION") in build.vals[Name("args")].vals
    ensures Seen(Normalised(root, expr), [Name("services"), s, Name("build"), Name("args"), Name("CANCAN_VERSION")]) == Leaf(expr)
  {
    var path := [Name("services"), s, Name("build"), Name("args"), Name("CANCAN_VERSION")];
    NormalisedFrame(root, expr, path);
    assert path[2..] == [Name("build"), Name("args"), Name("CANCAN_VERSION")];
    assert path[2..][1..] == [Name("args"), Name("CANCAN_VERSION")] && path[2..][3..] == [];
  }

  lemma AnchorArgWritten(root: Value, expr: Value, k: Key, path: seq<Key>)
    requires root.Dict? && IsAnchor(k) && k in root.vals && ArgTouched(root.vals[k], path) && |path| == 2 && !expr.Dict?
    ensures Seen(Normalised(root, expr), [k] + path) == Leaf(expr)
  {
    var whole := [k] + path;
    assert whole[1..] == path && whole[3..] == [];
    NormalisedFrame(root, expr, whole);
  }

  /** And so is that of a build anchor. */
  lemma AnchorVersionWritten(root: Value, expr: Value, rest: string)
    requires root.Dict? && Name("x-" + rest) in root.vals && !expr.Dict?
    requires var build := root.vals[Name("x-" + rest)];
      build.Dict? && Name("args") in build.vals && build.vals[Name("args")].Dict? && Name("CANCAN_VERSION") in build.vals[Name("args")].vals
    ensures Seen(Normalised(root, expr), [Name("x-" + rest), Name("args"), Name("CANCAN_VERSION")]) == Leaf(expr)
  {
    var k, path := Name("x-" + rest), [Name("args"), Name("CANCAN_VERSION")];
    AnchorMeans(rest);
    AnchorArgWritten(root, expr, k, path);
    assert [k] + path == [Name("x-" + rest), Name("args"), Name("CANCAN_VERSION")];
  }
}
