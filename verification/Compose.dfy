/** Compose documents as ordered trees, and the deep merge that layers overlays over them. */
module Compose {
  import opened Wrappers
  import opened Sequences

  datatype Key = Name(name: string) | Number(n: int)

  /** A mapping keeps its keys in order; equality of trees includes that order, because the
      document is written out unsorted. */
  datatype Value =
    | Null
    | Bool(b: bool)
    | Num(n: int)
    | Text(s: string)
    | List(items: seq<Value>)
    | Dict(keys: seq<Key>, vals: map<Key, Value>)

  /** A dictionary has every key once and a value for each. */
  ghost predicate WellFormed(v: Value) {
    v.Dict? ==>
      && Distinct(v.keys)
      && (forall k :: k in v.keys <==> k in v.vals)
      && (forall k | k in v.vals :: WellFormed(v.vals[k]))
  }

  /** Those of `keys` that are not in `seen`, in order. */
  function NewKeys(keys: seq<Key>, seen: map<Key, Value>): seq<Key> {
    if keys == [] then []
    else if keys[0] in seen then NewKeys(keys[1..], seen)
    else [keys[0]] + NewKeys(keys[1..], seen)
  }

  function Merge(a: Value, b: Value): Value
    requires a.Dict? && b.Dict?
    decreases b
  {
    Dict(a.keys + NewKeys(b.keys, a.vals),
         map k | k in a.vals.Keys + b.vals.Keys ::
           if k !in b.vals then a.vals[k]
           else if k in a.vals && a.vals[k].Dict? && b.vals[k].Dict? then Merge(a.vals[k], b.vals[k])
           else b.vals[k])
  }

  // ---- Keys ----------------------------------------------------------------------------------

  lemma {:induction false} NewKeysMember(keys: seq<Key>, seen: map<Key, Value>, k: Key)
    ensures k in NewKeys(keys, seen) <==> k in keys && k !in seen
    decreases |keys|
  {
    if keys != [] {
      NewKeysMember(keys[1..], seen, k);
    }
  }

  lemma {:induction false} NewKeysDistinct(keys: seq<Key>, seen: map<Key, Value>)
    requires Distinct(keys)
    ensures Distinct(NewKeys(keys, seen))
    decreases |keys|
  {
    if keys != [] {
      NewKeysDistinct(keys[1..], seen);
      NewKeysMember(keys[1..], seen, keys[0]);
    }
  }

  lemma NoRepeatsConcat(a: seq<Key>, b: seq<Key>)
    requires Distinct(a) && Distinct(b) && forall k | k in a :: k !in b
    ensures Distinct(a + b)
  {
    var c := a + b;
    forall i, j | 0 <= i < j < |c| ensures c[i] != c[j] {
      if i < |a| <= j {
        assert c[i] in a && c[j] == b[j - |a|] && c[j] in b;
      }
    }
  }

  lemma {:induction false} NewKeysConcat(x: seq<Key>, y: seq<Key>, seen: map<Key, Value>)
    ensures NewKeys(x + y, seen) == NewKeys(x, seen) + NewKeys(y, seen)
    decreases |x|
  {
    if x == [] {
      assert x + y == y;
    } else {
      assert (x + y)[0] == x[0] && (x + y)[1..] == x[1..] + y;
      NewKeysConcat(x[1..], y, seen);
    }
  }

  lemma {:induction false} NewKeysTwice(keys: seq<Key>, first: map<Key, Value>, second: map<Key, Value>, both: map<Key, Value>)
    requires both.Keys == first.Keys + second.Keys
    ensures NewKeys(NewKeys(keys, first), second) == NewKeys(keys, both)
    decreases |keys|
  {
    if keys != [] {
      assert keys[0] in both <==> keys[0] in first || keys[0] in second;
      NewKeysTwice(keys[1..], first, second, both);
    }
  }

  lemma {:induction false} NoNewKeys(keys: seq<Key>, seen: map<Key, Value>)
    requires forall k | k in keys :: k in seen
    ensures NewKeys(keys, seen) == []
    decreases |keys|
  {
    if keys != [] {
      NoNewKeys(keys[1..], seen);
    }
  }

  lemma {:induction false} AllNewKeys(keys: seq<Key>, seen: map<Key, Value>)
    requires forall k | k in keys :: k !in seen
    ensures NewKeys(keys, seen) == keys
    decreases |keys|
  {
    if keys != [] {
      AllNewKeys(keys[1..], seen);
    }
  }

  lemma {:induction false} MergeWellFormed(a: Value, b: Value)
    requires a.Dict? && b.Dict? && WellFormed(a) && WellFormed(b)
    ensures WellFormed(Merge(a, b))
    decreases b
  {
    var m := Merge(a, b);
    forall k { NewKeysMember(b.keys, a.vals, k); }
    NewKeysDistinct(b.keys, a.vals);
    NoRepeatsConcat(a.keys, NewKeys(b.keys, a.vals));
    forall k | k in m.vals ensures WellFormed(m.vals[k]) {
      if k in a.vals && k in b.vals && a.vals[k].Dict? && b.vals[k].Dict? {
        MergeWellFormed(a.vals[k], b.vals[k]);
      }
    }
  }

  // ---- Paths ---------------------------------------------------------------------------------


  /** The value at a path, if there is one. */
  function At(v: Value, path: seq<Key>): Option<Value> {
    if path == [] then Some(v)
    else if v.Dict? && path[0] in v.vals then At(v.vals[path[0]], path[1..])
    else None
  }

  /** Some value that is not a mapping stands on the way to the path. */
  predicate CutOff(v: Value, path: seq<Key>) {
    path != [] && (!v.Dict? || (path[0] in v.vals && CutOff(v.vals[path[0]], path[1..])))
  }

  /** At every path the overlay decides wherever it has a value there that is not laid as a mapping
      over a mapping, two mappings are merged in turn, and everything else is the base's, except what
      lies below a value of the overlay that is not a mapping. */
  lemma {:induction false} MergeAt(a: Value, b: Value, path: seq<Key>)
    requires a.Dict? && b.Dict?
    ensures var x, y := At(a, path), At(b, path);
            At(Merge(a, b), path) ==
            if y.Some? then (if x.Some? && x.value.Dict? && y.value.Dict? then Some(Merge(x.value, y.value)) else y)
            else if CutOff(b, path) then None
            else x
    decreases |path|
  {
    if path != [] {
      var k := path[0];
      if k in a.vals && k in b.vals && a.vals[k].Dict? && b.vals[k].Dict? {
        MergeAt(a.vals[k], b.vals[k], path[1..]);
      }
    }
  }

  // ---- Algebra ---------------------------------------------------------------------------------

  lemma MergedKeys(a: Value, b: Value)
    requires a.Dict? && b.Dict?
    ensures Merge(a, b).keys == a.keys + NewKeys(b.keys, a.vals)
    ensures Merge(a, b).vals.Keys == a.vals.Keys + b.vals.Keys
  {
  }

  lemma MergedValue(a: Value, b: Value, k: Key)
    requires a.Dict? && b.Dict? && (k in a.vals || k in b.vals)
    ensures k in Merge(a, b).vals
    ensures Merge(a, b).vals[k] ==
            if k !in b.vals then a.vals[k]
            else if k in a.vals && a.vals[k].Dict? && b.vals[k].Dict? then Merge(a.vals[k], b.vals[k])
            else b.vals[k]
  {
  }

  lemma {:induction false} NewKeysInOrder(keys: seq<Key>, seen: map<Key, Value>)
    ensures StruckOut(NewKeys(keys, seen), keys)
  {
    if keys != [] { NewKeysInOrder(keys[1..], seen); }
  }

  /** The order of the merged keys: the base's keys come first, in the base's order; after them come
      exactly the overlay's keys that the base does not have, in the overlay's order. */
  lemma MergeKeyOrder(a: Value, b: Value)
    requires a.Dict? && b.Dict? && WellFormed(a) && WellFormed(b)
    ensures var keys, n := Merge(a, b).keys, |a.keys|;
            && n <= |keys| && keys[..n] == a.keys
            && StruckOut(keys[n..], b.keys)
            && Distinct(keys)
            && forall k :: k in keys[n..] <==> k in b.keys && k !in a.keys
  {
    var added := NewKeys(b.keys, a.vals);
    assert Merge(a, b).keys == a.keys + added;
    assert Merge(a, b).keys[|a.keys|..] == added;
    NewKeysInOrder(b.keys, a.vals);
    forall k { NewKeysMember(b.keys, a.vals, k); }
    MergeWellFormed(a, b);
  }

  /** Merging onto or with the empty mapping changes nothing. */
  lemma EmptyBelow(e: Value, a: Value)
    requires e.Dict? && e.keys == [] && e.vals == map[] && a.Dict? && WellFormed(a)
    ensures Merge(e, a) == a
  {
    var m := Merge(e, a);
    MergedKeys(e, a);
    AllNewKeys(a.keys, e.vals);
    forall k | k in a.vals ensures k in m.vals && m.vals[k] == a.vals[k] {
      MergedValue(e, a, k);
    }
    assert m.keys == a.keys;
    SameDict(m, a);
  }

  lemma SameDict(m: Value, a: Value)
    requires m.Dict? && a.Dict? && m.keys == a.keys && m.vals.Keys == a.vals.Keys
    requires forall k | k in a.vals :: m.vals[k] == a.vals[k]
    ensures m == a
  {
    assert m.vals == a.vals;
  }

  lemma EmptyAbove(a: Value, e: Value)
    requires e.Dict? && e.keys == [] && e.vals == map[] && a.Dict? && WellFormed(a)
    ensures Merge(a, e) == a
  {
    var m := Merge(a, e);
    assert m.keys == a.keys + [] == a.keys;
    assert forall k | k in a.vals :: m.vals[k] == a.vals[k];
    assert m.vals == a.vals;
  }

  /** `a` leaves no trace when `c` is merged over it: its keys, in order, begin those of `c`, and so
      on below, wherever both have a mapping. */
  ghost predicate Subsumed(a: Value, c: Value)
    requires a.Dict? && c.Dict?
    decreases a
  {
    && a.keys <= c.keys
    && forall k | k in a.vals && k in c.vals && a.vals[k].Dict? && c.vals[k].Dict? :: Subsumed(a.vals[k], c.vals[k])
  }

  lemma SuffixIsNew(prefix: seq<Key>, all: seq<Key>)
    requires Distinct(all) && prefix <= all
    ensures forall k | k in all[|prefix|..] :: k !in prefix
  {
    var rest := all[|prefix|..];
    forall i, j | 0 <= i < |prefix| && 0 <= j < |rest| ensures prefix[i] != rest[j] {
      assert all[i] == prefix[i] && all[|prefix| + j] == rest[j];
    }
  }

  lemma NewAfterPrefix(prefix: seq<Key>, all: seq<Key>, seen: map<Key, Value>)
    requires Distinct(all) && prefix <= all && forall k :: k in prefix <==> k in seen
    ensures prefix + NewKeys(all, seen) == all
  {
    var rest := all[|prefix|..];
    SuffixIsNew(prefix, all);
    NewAfter(prefix, rest, seen);
    assert all == prefix + rest;
  }

  lemma NewAfter(first: seq<Key>, rest: seq<Key>, seen: map<Key, Value>)
    requires (forall k | k in first :: k in seen) && (forall k | k in rest :: k !in seen)
    ensures NewKeys(first + rest, seen) == rest
  {
    NewKeysConcat(first, rest, seen);
    NoNewKeys(first, seen);
    AllNewKeys(rest, seen);
    assert [] + rest == rest;
  }

  lemma PrefixLeavesRest(a: Value, c: Value)
    requires a.Dict? && c.Dict? && WellFormed(a) && WellFormed(c) && a.keys <= c.keys
    ensures a.keys + NewKeys(c.keys, a.vals) == c.keys
    ensures forall k | k in a.vals :: k in c.vals
  {
    NewAfterPrefix(a.keys, c.keys, a.vals);
    assert forall k | k in a.keys :: k in c.keys;
  }

  lemma {:induction false} AbsorbedExactlyWhen(a: Value, c: Value)
    requires a.Dict? && c.Dict? && WellFormed(a) && WellFormed(c)
    ensures Merge(a, c) == c <==> Subsumed(a, c)
    decreases a
  {
    forall k | k in a.vals && k in c.vals && a.vals[k].Dict? && c.vals[k].Dict?
      ensures Merge(a.vals[k], c.vals[k]) == c.vals[k] <==> Subsumed(a.vals[k], c.vals[k])
    {
      AbsorbedExactlyWhen(a.vals[k], c.vals[k]);
    }
    if Subsumed(a, c) {
      PrefixLeavesRest(a, c);
      forall k | k in c.vals ensures Merge(a, c).vals[k] == c.vals[k] {
        MergedValue(a, c, k);
      }
      SameDict(Merge(a, c), c);
    }
    if Merge(a, c) == c {
      assert a.keys <= a.keys + NewKeys(c.keys, a.vals);
      forall k | k in a.vals && k in c.vals && a.vals[k].Dict? && c.vals[k].Dict?
        ensures Subsumed(a.vals[k], c.vals[k])
      {
        MergedValue(a, c, k);
      }
    }
  }

  /** Merging a document with itself changes nothing. */
  lemma {:induction false} MergeIdempotent(a: Value)
    requires a.Dict? && WellFormed(a)
    ensures Merge(a, a) == a
    decreases a
  {
    NoNewKeys(a.keys, a.vals);
    forall k | k in a.vals && a.vals[k].Dict? ensures Merge(a.vals[k], a.vals[k]) == a.vals[k] {
      MergeIdempotent(a.vals[k]);
    }
    assert Merge(a, a).vals == a.vals;
  }

  /** Merging the same overlay a second time changes nothing. */
  lemma {:induction false} OverlayOnce(a: Value, b: Value)
    requires a.Dict? && b.Dict? && WellFormed(a) && WellFormed(b)
    ensures Merge(Merge(a, b), b) == Merge(a, b)
    decreases b
  {
    var m := Merge(a, b);
    NoNewKeys(b.keys, m.vals);
    forall k | k in b.vals && b.vals[k].Dict? ensures Merge(m, b).vals[k] == m.vals[k] {
      if k in a.vals && a.vals[k].Dict? {
        OverlayOnce(a.vals[k], b.vals[k]);
      } else {
        MergeIdempotent(b.vals[k]);
      }
    }
    assert Merge(m, b).vals == m.vals;
  }

  /** Where all three documents have a key: a mapping of the first and of the third with something
      else of the second in between is harmless only if the third subsumes the first. */
  ghost predicate Regroupable(a: Value, b: Value, c: Value)
    requires a.Dict? && b.Dict? && c.Dict?
    decreases b
  {
    forall k | k in a.vals && k in b.vals && k in c.vals && a.vals[k].Dict? && c.vals[k].Dict? ::
      if b.vals[k].Dict? then Regroupable(a.vals[k], b.vals[k], c.vals[k]) else Subsumed(a.vals[k], c.vals[k])
  }

  lemma SameKeysEitherWay(a: Value, b: Value, c: Value)
    requires a.Dict? && b.Dict? && c.Dict?
    ensures Merge(Merge(a, b), c).keys == Merge(a, Merge(b, c)).keys
    ensures Merge(Merge(a, b), c).vals.Keys == Merge(a, Merge(b, c)).vals.Keys
  {
    var ab, bc := Merge(a, b), Merge(b, c);
    MergedKeys(a, b);
    MergedKeys(b, c);
    MergedKeys(ab, c);
    MergedKeys(a, bc);
    SameNewKeys(a.keys, b.keys, c.keys, a.vals, b.vals, ab.vals);
  }

  lemma SameNewKeys(a: seq<Key>, b: seq<Key>, c: seq<Key>, seenA: map<Key, Value>, seenB: map<Key, Value>, seenAB: map<Key, Value>)
    requires seenAB.Keys == seenA.Keys + seenB.Keys
    ensures a + NewKeys(b, seenA) + NewKeys(c, seenAB) == a + NewKeys(b + NewKeys(c, seenB), seenA)
  {
    NewKeysConcat(b, NewKeys(c, seenB), seenA);
    NewKeysTwice(c, seenB, seenA, seenAB);
    Regrouped(a, NewKeys(b, seenA), NewKeys(c, seenAB));
  }

  lemma Regrouped(x: seq<Key>, y: seq<Key>, z: seq<Key>)
    ensures x + y + z == x + (y + z)
  {
  }

  /** The two groupings of three layers agree, order of keys included, exactly when the layers are
      regroupable. */
  lemma {:induction false} AssociativeExactlyWhen(a: Value, b: Value, c: Value)
    requires a.Dict? && b.Dict? && c.Dict? && WellFormed(a) && WellFormed(b) && WellFormed(c)
    ensures Merge(Merge(a, b), c) == Merge(a, Merge(b, c)) <==> Regroupable(a, b, c)
    decreases b
  {
    SameKeysEitherWay(a, b, c);
    var left, right := Merge(Merge(a, b), c), Merge(a, Merge(b, c));
    forall k | k in left.vals
      ensures left.vals[k] == right.vals[k] <==>
              (k in a.vals && k in b.vals && k in c.vals && a.vals[k].Dict? && c.vals[k].Dict? ==>
                 if b.vals[k].Dict? then Regroupable(a.vals[k], b.vals[k], c.vals[k]) else Subsumed(a.vals[k], c.vals[k]))
    {
      if k in a.vals && k in b.vals && k in c.vals && a.vals[k].Dict? && c.vals[k].Dict? {
        if b.vals[k].Dict? {
          AssociativeExactlyWhen(a.vals[k], b.vals[k], c.vals[k]);
        } else {
          AbsorbedExactlyWhen(a.vals[k], c.vals[k]);
        }
      }
    }
    if Regroupable(a, b, c) {
      assert left.vals == right.vals;
    }
    if left == right {
      forall k | k in a.vals && k in b.vals && k in c.vals && a.vals[k].Dict? && c.vals[k].Dict?
        ensures if b.vals[k].Dict? then Regroupable(a.vals[k], b.vals[k], c.vals[k]) else Subsumed(a.vals[k], c.vals[k])
      {
        assert k in left.vals;
      }
    }
  }

  /** In particular they agree when the middle layer never puts anything but a mapping where the
      other two have one. */
  ghost predicate MiddleKeepsMappings(a: Value, b: Value, c: Value)
    requires a.Dict? && b.Dict? && c.Dict?
    decreases b
  {
    forall k | k in a.vals && k in b.vals && k in c.vals && a.vals[k].Dict? && c.vals[k].Dict? ::
      b.vals[k].Dict? && MiddleKeepsMappings(a.vals[k], b.vals[k], c.vals[k])
  }

  lemma {:induction false} MappingsRegroup(a: Value, b: Value, c: Value)
    requires a.Dict? && b.Dict? && c.Dict? && MiddleKeepsMappings(a, b, c)
    ensures Regroupable(a, b, c)
    decreases b
  {
    forall k | k in a.vals && k in b.vals && k in c.vals && a.vals[k].Dict? && c.vals[k].Dict?
      ensures Regroupable(a.vals[k], b.vals[k], c.vals[k])
    {
      MappingsRegroup(a.vals[k], b.vals[k], c.vals[k]);
    }
  }

  lemma AtTwo(v: Value, k: Key, x: Key)
    requires v.Dict? && k in v.vals && v.vals[k].Dict?
    ensures At(v, [k, x]) == if x in v.vals[k].vals then Some(v.vals[k].vals[x]) else None
  {
    var inner := v.vals[k];
    assert [k, x][1..] == [x] && [x][1..] == [];
    assert At(inner, [x]) == if x in inner.vals then At(inner.vals[x], []) else None;
  }

  lemma BothGroupings(a: Value, b: Value, c: Value, k: Key)
    requires a.Dict? && b.Dict? && c.Dict?
    requires k in a.vals && k in b.vals && k in c.vals && a.vals[k].Dict? && !b.vals[k].Dict? && c.vals[k].Dict?
    ensures var l := Merge(Merge(a, b), c); k in l.vals && l.vals[k] == c.vals[k]
    ensures var r := Merge(a, Merge(b, c)); k in r.vals && r.vals[k] == Merge(a.vals[k], c.vals[k])
  {
    MergedValue(a, b, k);
    MergedValue(b, c, k);
    MergedValue(Merge(a, b), c, k);
    MergedValue(a, Merge(b, c), k);
  }

  /** The condition is needed: wherever the second document has something else at a key at which the
      first has a mapping with a key the third does not have, the two groupings differ. */
  lemma GroupingMatters(a: Value, b: Value, c: Value, k: Key, x: Key)
    requires a.Dict? && b.Dict? && c.Dict?
    requires k in a.vals && k in b.vals && k in c.vals && a.vals[k].Dict? && !b.vals[k].Dict? && c.vals[k].Dict?
    requires x in a.vals[k].vals && x !in c.vals[k].vals
    ensures At(Merge(Merge(a, b), c), [k, x]) == None
    ensures At(Merge(a, Merge(b, c)), [k, x]) == Some(a.vals[k].vals[x])
  {
    BothGroupings(a, b, c, k);
    AtTwo(Merge(Merge(a, b), c), k, x);
    AtTwo(Merge(a, Merge(b, c)), k, x);
    MergedValue(a.vals[k], c.vals[k], x);
  }

  // ---- The merge loop ---------------------------------------------------------------------------

  /** Assignment to one key of a dictionary: a new key goes to the end. */
  function Assign(d: Value, k: Key, v: Value): Value
    requires d.Dict?
  {
    Dict(if k in d.vals then d.keys else d.keys + [k], d.vals[k := v])
  }

  /** The first `n` entries of a dictionary. */
  function Front(d: Value, n: nat): Value
    requires d.Dict? && n <= |d.keys| && forall k | k in d.keys :: k in d.vals
  {
    Dict(d.keys[..n], map k | k in d.keys[..n] :: d.vals[k])
  }

  /** What one overlay entry puts at its key. */
  function Laid(base: Value, overlay: Value, k: Key): Value
    requires base.Dict? && overlay.Dict? && k in overlay.vals
  {
    if k in base.vals && base.vals[k].Dict? && overlay.vals[k].Dict? then Merge(base.vals[k], overlay.vals[k])
    else overlay.vals[k]
  }

  lemma PrefixGrows(keys: seq<Key>, n: nat, seen: map<Key, Value>)
    requires Distinct(keys) && n < |keys|
    ensures NewKeys(keys[..n + 1], seen) == NewKeys(keys[..n], seen) + if keys[n] in seen then [] else [keys[n]]
    ensures keys[n] !in keys[..n]
    ensures forall k :: k in keys[..n + 1] <==> k in keys[..n] || k == keys[n]
  {
    assert keys[..n + 1] == keys[..n] + [keys[n]];
    NewKeysConcat(keys[..n], [keys[n]], seen);
    assert [keys[n]][1..] == [];
  }

  lemma FrontStepKeys(a: Value, b: Value, n: nat)
    requires a.Dict? && b.Dict? && WellFormed(b) && n < |b.keys|
    ensures NewKeys(b.keys[..n + 1], a.vals) == NewKeys(b.keys[..n], a.vals) + if b.keys[n] in a.vals then [] else [b.keys[n]]
    ensures b.keys[n] !in Front(b, n).vals && b.keys[n] in Front(b, n + 1).vals
    ensures Front(b, n + 1).vals.Keys == Front(b, n).vals.Keys + {b.keys[n]}
  {
    PrefixGrows(b.keys, n, a.vals);
    assert Front(b, n).vals.Keys == set k | k in b.keys[..n];
  }

  lemma FrontStepValue(a: Value, b: Value, n: nat, x: Key)
    requires a.Dict? && b.Dict? && WellFormed(b) && n < |b.keys|
    requires x in a.vals || x in Front(b, n + 1).vals
    ensures x in Merge(a, Front(b, n + 1)).vals
    ensures x == b.keys[n] ==> Merge(a, Front(b, n + 1)).vals[x] == Laid(a, b, x)
    ensures x != b.keys[n] ==> x in Merge(a, Front(b, n)).vals && Merge(a, Front(b, n + 1)).vals[x] == Merge(a, Front(b, n)).vals[x]
  {
    FrontStepKeys(a, b, n);
    MergedValue(a, Front(b, n + 1), x);
    if x != b.keys[n] {
      MergedValue(a, Front(b, n), x);
    }
  }

  lemma AppendedKeys(x: seq<Key>, y: seq<Key>, k: Key)
    ensures x + (y + [k]) == x + y + [k]
    ensures x + (y + []) == x + y
  {
  }

  lemma FrontStepAllKeys(a: Value, b: Value, n: nat)
    requires a.Dict? && b.Dict? && WellFormed(b) && n < |b.keys|
    ensures var k, m, m' := b.keys[n], Merge(a, Front(b, n)), Merge(a, Front(b, n + 1));
            m'.keys == (if k in m.vals then m.keys else m.keys + [k]) && m'.vals.Keys == m.vals.Keys + {k}
  {
    FrontStepKeys(a, b, n);
    MergedKeys(a, Front(b, n));
    MergedKeys(a, Front(b, n + 1));
    AppendedKeys(a.keys, NewKeys(b.keys[..n], a.vals), b.keys[n]);
  }

  lemma FrontStep(a: Value, b: Value, n: nat)
    requires a.Dict? && b.Dict? && WellFormed(b) && n < |b.keys|
    ensures var k := b.keys[n];
            Merge(a, Front(b, n + 1)) == Assign(Merge(a, Front(b, n)), k, Laid(a, b, k))
  {
    var k := b.keys[n];
    var m, m' := Merge(a, Front(b, n)), Merge(a, Front(b, n + 1));
    FrontStepAllKeys(a, b, n);
    forall x | x in m'.vals ensures m'.vals[x] == if x == k then Laid(a, b, k) else m.vals[x] {
      MergedKeys(a, Front(b, n + 1));
      FrontStepValue(a, b, n, x);
    }
    AssignedDict(m, m', k, Laid(a, b, k));
  }

  lemma AssignedDict(m: Value, m': Value, k: Key, v: Value)
    requires m.Dict? && m'.Dict?
    requires m'.keys == (if k in m.vals then m.keys else m.keys + [k]) && m'.vals.Keys == m.vals.Keys + {k}
    requires forall x | x in m'.vals :: if x == k then m'.vals[x] == v else x in m.vals && m'.vals[x] == m.vals[x]
    ensures m' == Assign(m, k, v)
  {
    SameDict(m', Assign(m, k, v));
  }

  /** The base with the first `n` overlay entries laid over it one by one. */
  function Overlaid(base: Value, overlay: Value, n: nat): (r: Value)
    requires base.Dict? && overlay.Dict? && n <= |overlay.keys| && forall k | k in overlay.keys :: k in overlay.vals
    ensures r.Dict?
  {
    if n == 0 then base
    else Assign(Overlaid(base, overlay, n - 1), overlay.keys[n - 1], Laid(base, overlay, overlay.keys[n - 1]))
  }

  lemma NothingOverlaid(base: Value, overlay: Value)
    requires base.Dict? && overlay.Dict? && WellFormed(base) && WellFormed(overlay)
    ensures Merge(base, Front(overlay, 0)) == base
  {
    var f := Front(overlay, 0);
    assert f.keys == [] && f.vals == map[];
    EmptyAbove(base, f);
  }

  lemma OneMoreOverlaid(base: Value, overlay: Value, n: nat, m: Value)
    requires base.Dict? && overlay.Dict? && WellFormed(overlay) && n < |overlay.keys|
    requires m == Merge(base, Front(overlay, n))
    ensures Assign(m, overlay.keys[n], Laid(base, overlay, overlay.keys[n])) == Merge(base, Front(overlay, n + 1))
  {
    FrontStep(base, overlay, n);
  }

  lemma {:induction false} OverlaidIsMerge(base: Value, overlay: Value, n: nat)
    requires base.Dict? && overlay.Dict? && WellFormed(base) && WellFormed(overlay) && n <= |overlay.keys|
    ensures Overlaid(base, overlay, n) == Merge(base, Front(overlay, n))
  {
    if n == 0 {
      NothingOverlaid(base, overlay);
    } else {
      OverlaidIsMerge(base, overlay, n - 1);
      OneMoreOverlaid(base, overlay, n - 1, Overlaid(base, overlay, n - 1));
    }
  }

  lemma OverlaidFully(base: Value, overlay: Value)
    requires base.Dict? && overlay.Dict? && WellFormed(base) && WellFormed(overlay)
    ensures Overlaid(base, overlay, |overlay.keys|) == Merge(base, overlay)
    ensures WellFormed(Merge(base, overlay))
  {
    OverlaidIsMerge(base, overlay, |overlay.keys|);
    assert overlay.keys[..|overlay.keys|] == overlay.keys;
    SameDict(Front(overlay, |overlay.keys|), overlay);
    MergeWellFormed(base, overlay);
  }

  /** Before its turn comes, a key has what the base has there. */
  lemma {:induction false} NotYetLaid(base: Value, overlay: Value, n: nat, k: Key)
    requires base.Dict? && overlay.Dict? && WellFormed(overlay) && n <= |overlay.keys| && k !in overlay.keys[..n]
    ensures var r := Overlaid(base, overlay, n);
            (k in r.vals <==> k in base.vals) && (k in base.vals ==> r.vals[k] == base.vals[k])
  {
    if n > 0 {
      assert overlay.keys[..n] == overlay.keys[..n - 1] + [overlay.keys[n - 1]];
      NotYetLaid(base, overlay, n - 1, k);
    }
  }

  /** Starts from a copy of the base and takes the overlay's entries one by one. */
  method DeepMerge(base: Value, overlay: Value) returns (result: Value)
    requires base.Dict? && overlay.Dict? && WellFormed(base) && WellFormed(overlay)
    ensures result == Merge(base, overlay)
    ensures WellFormed(result)
    decreases overlay
  {
    result := base;
    var i := 0;
    while i < |overlay.keys|
      invariant 0 <= i <= |overlay.keys|
      invariant result == Overlaid(base, overlay, i)
    {
      var key := overlay.keys[i];
      NotYetLaid(base, overlay, i, key);
      var value := overlay.vals[key];
      if key !in result.vals {
        result := Assign(result, key, value);
      } else if result.vals[key].Dict? && value.Dict? {
        var merged := DeepMerge(result.vals[key], value);
        result := Assign(result, key, merged);
      } else {
        result := Assign(result, key, value);
      }
      i := i + 1;
    }
    OverlaidFully(base, overlay);
  }
}
