/** The deep merge over documents in memory: it builds a new document out of new nodes and leaves both
    of its inputs alone. */
module ComposeHeap {
  import opened Sequences
  import opened Compose

  /** A value in memory: a mapping, whose entries are assigned in place, or any other value. */
  class Node {
    const isDict: bool
    const atom: Value
    var keys: seq<Key>
    var vals: map<Key, Node>
    ghost var repr: set<Node>

    ghost predicate Valid()
      reads this, repr
      decreases repr
    {
      && this in repr
      && (!isDict ==> !atom.Dict?)
      && Distinct(keys) && (forall k :: k in keys <==> k in vals)
      && (forall k | k in vals :: vals[k] in repr && vals[k].repr <= repr - {this} && vals[k].Valid())
    }

    /** The document below this node. */
    ghost function Tree(): Value
      requires Valid()
      reads this, repr
      decreases repr
    {
      if isDict then Dict(keys, map k | k in vals :: vals[k].Tree()) else atom
    }

    lemma TreeWellFormed()
      requires Valid() && isDict
      ensures WellFormed(Tree())
      decreases repr
    {
      forall k | k in vals ensures WellFormed(vals[k].Tree()) {
        if vals[k].isDict { vals[k].TreeWellFormed(); }
      }
    }

    constructor Atom(v: Value)
      requires !v.Dict?
      ensures Valid() && fresh(repr) && !isDict && Tree() == v
    {
      isDict, atom, keys, vals := false, v, [], map[];
      repr := {this};
    }

    constructor Mapping()
      ensures Valid() && fresh(repr) && isDict && Tree() == Dict([], map[])
    {
      isDict, atom, keys, vals := true, Null, [], map[];
      repr := {this};
    }

    lemma Entries()
      requires Valid() && isDict
      ensures Tree().Dict? && Tree().keys == keys && Tree().vals.Keys == vals.Keys
    {
    }

    lemma Entry(key: Key)
      requires Valid() && isDict && key in keys
      ensures Tree().Dict? && Tree().keys == keys && Tree().vals.Keys == vals.Keys
      ensures vals[key].Valid() && vals[key].repr <= repr - {this} && vals[key].repr < repr
      ensures Tree().vals[key] == vals[key].Tree()
      ensures Tree().vals[key].Dict? <==> vals[key].isDict
    {
    }

    /** A part of the memory that is not written keeps its document. */
    twostate lemma Kept()
      requires old(Valid()) && (forall n | n in old(repr) :: old(allocated(n)) && unchanged(n))
      ensures Valid() && Tree() == old(Tree()) && repr == old(repr)
    {
    }

    /** Assignment to one key, in place. */
    method Put(key: Key, child: Node)
      requires Valid() && isDict && child.Valid() && this !in child.repr
      modifies this
      ensures Valid() && repr == old(repr) + child.repr
      ensures Tree() == Assign(old(Tree()), key, child.Tree())
      ensures vals == old(vals)[key := child]
      ensures child.Valid() && child.repr == old(child.repr) && child.Tree() == old(child.Tree())
    {
      if key in vals {
        PutOver(key, child);
      } else {
        PutNew(key, child);
      }
    }

    method PutNew(key: Key, child: Node)
      requires Valid() && isDict && child.Valid() && this !in child.repr && key !in vals
      modifies this
      ensures Valid() && repr == old(repr) + child.repr
      ensures Tree() == Assign(old(Tree()), key, child.Tree())
      ensures vals == old(vals)[key := child]
      ensures child.Valid() && child.repr == old(child.repr) && child.Tree() == old(child.Tree())
    {
      ghost var before, d, c := vals, Tree(), child.Tree();
      AppendDistinct(keys, key);
      keys := keys + [key];
      vals := vals[key := child];
      repr := repr + child.repr;
      child.Kept();
      forall k | k in before ensures before[k].Valid() && before[k].Tree() == old(before[k].Tree()) && before[k].repr == old(before[k].repr) {
        before[k].Kept();
      }
      SameTree(Tree(), Assign(d, key, c));
    }

    method PutOver(key: Key, child: Node)
      requires Valid() && isDict && child.Valid() && this !in child.repr && key in vals
      modifies this
      ensures Valid() && repr == old(repr) + child.repr
      ensures Tree() == Assign(old(Tree()), key, child.Tree())
      ensures vals == old(vals)[key := child]
      ensures child.Valid() && child.repr == old(child.repr) && child.Tree() == old(child.Tree())
    {
      ghost var before, d, c := vals, Tree(), child.Tree();
      vals := vals[key := child];
      repr := repr + child.repr;
      child.Kept();
      forall k | k in before ensures before[k].Valid() && before[k].Tree() == old(before[k].Tree()) && before[k].repr == old(before[k].repr) {
        before[k].Kept();
      }
      SameTree(Tree(), Assign(d, key, c));
    }

    static lemma AppendDistinct(s: seq<Key>, k: Key)
      requires Distinct(s)
      ensures k !in s ==> Distinct(s + [k])
      ensures forall x :: x in s + [k] <==> x in s || x == k
    {
    }

    static lemma SameTree(a: Value, b: Value)
      requires a.Dict? && b.Dict? && a.keys == b.keys && a.vals.Keys == b.vals.Keys
      requires forall k | k in a.vals :: a.vals[k] == b.vals[k]
      ensures a == b
    {
      SameDict(a, b);
    }
  }

  lemma FrontGrows(d: Value, n: nat)
    requires d.Dict? && WellFormed(d) && n < |d.keys|
    ensures Assign(Front(d, n), d.keys[n], d.vals[d.keys[n]]) == Front(d, n + 1)
  {
    assert d.keys[..n + 1] == d.keys[..n] + [d.keys[n]];
    SameDict(Assign(Front(d, n), d.keys[n], d.vals[d.keys[n]]), Front(d, n + 1));
  }

  lemma FrontWhole(d: Value)
    requires d.Dict? && WellFormed(d)
    ensures Front(d, |d.keys|) == d
  {
    assert d.keys[..|d.keys|] == d.keys;
    SameDict(Front(d, |d.keys|), d);
  }

  /** A copy of the source is assigned to the key; `added` are its nodes. */
  method CopyInto(target: Node, key: Key, source: Node) returns (ghost added: set<Node>)
    requires target.Valid() && target.isDict && source.Valid() && target !in source.repr
    modifies target
    ensures target.Valid() && target.repr == old(target.repr) + added && fresh(added)
    ensures target.Tree() == Assign(old(target.Tree()), key, old(source.Tree()))
    decreases source.repr, 2
  {
    var child := DeepCopy(source);
    target.Put(key, child);
    added := child.repr;
  }

  /** A document like the given one, made of new nodes. */
  method DeepCopy(node: Node) returns (copy: Node)
    requires node.Valid()
    ensures copy.Valid() && fresh(copy.repr) && copy.isDict == node.isDict && copy.Tree() == node.Tree()
    decreases node.repr, 1
  {
    if !node.isDict {
      copy := new Node.Atom(node.atom);
      return;
    }
    copy := new Node.Mapping();
    node.TreeWellFormed();
    node.Entries();
    ghost var doc := node.Tree();
    assert Front(doc, 0) == Dict([], map[]) by { assert doc.keys[..0] == []; }
    var i := 0;
    while i < |node.keys|
      invariant 0 <= i <= |node.keys| && node.keys == doc.keys && node.repr == old(node.repr)
      invariant node.Valid() && node.Tree() == doc
      invariant copy.Valid() && fresh(copy.repr) && copy.isDict && copy !in node.repr
      invariant copy.Tree() == Front(doc, i)
    {
      ghost var added := CopyNext(copy, node, i, doc);
      i := i + 1;
    }
    FrontWhole(doc);
  }

  method CopyNext(copy: Node, node: Node, i: nat, ghost doc: Value) returns (ghost added: set<Node>)
    requires copy.Valid() && copy.isDict && node.Valid() && node.isDict && copy !in node.repr
    requires node.Tree() == doc && doc.Dict? && WellFormed(doc) && node.keys == doc.keys
    requires i < |doc.keys| && copy.Tree() == Front(doc, i)
    modifies copy
    ensures copy.Valid() && copy.repr == old(copy.repr) + added && fresh(added)
    ensures copy.Tree() == Front(doc, i + 1)
    ensures node.Valid() && node.Tree() == doc && node.keys == doc.keys && node.repr == old(node.repr)
    decreases node.repr, 0
  {
    node.Entry(node.keys[i]);
    FrontGrows(doc, i);
    added := CopyInto(copy, node.keys[i], node.vals[node.keys[i]]);
    node.Kept();
  }

  /** The merge over nodes: a new document of new nodes. Neither input is written, at any depth, and the
      result shares no node with them. */
  method DeepMergeNodes(base: Node, overlay: Node) returns (result: Node)
    requires base.Valid() && base.isDict && overlay.Valid() && overlay.isDict
    ensures result.Valid() && result.isDict && fresh(result.repr)
    ensures base.Valid() && base.Tree() == old(base.Tree()) && overlay.Valid() && overlay.Tree() == old(overlay.Tree())
    ensures result.Tree() == Merge(base.Tree(), overlay.Tree())
    decreases overlay.repr, 3
  {
    base.TreeWellFormed();
    overlay.TreeWellFormed();
    overlay.Entries();
    ghost var b, o := base.Tree(), overlay.Tree();
    ghost var docs := Stages(b, o);
    result := DeepCopy(base);
    overlay.Kept();
    ghost var added := LayAll(result, overlay, docs, o);
    OverlaidFully(b, o);
    base.Kept();
    overlay.Kept();
  }

  /** The documents that come about one after the other while the overlay is laid. */
  ghost predicate InStages(docs: seq<Value>, o: Value) {
    && o.Dict? && |docs| == |o.keys| + 1
    && forall i | 0 <= i < |o.keys| :: Stage(docs, o, i)
  }

  ghost predicate Stage(docs: seq<Value>, o: Value, i: nat)
    requires o.Dict? && i < |o.keys| && |docs| == |o.keys| + 1
  {
    docs[i].Dict? && o.keys[i] in o.vals && docs[i + 1] == Laying(docs[i], o.keys[i], o.vals[o.keys[i]])
  }

  lemma Stages(b: Value, o: Value) returns (docs: seq<Value>)
    requires b.Dict? && o.Dict? && WellFormed(o)
    ensures InStages(docs, o) && docs[0] == b && docs[|o.keys|] == Overlaid(b, o, |o.keys|)
  {
    docs := seq(|o.keys| + 1, i requires 0 <= i <= |o.keys| => Overlaid(b, o, i));
    forall i | 0 <= i < |o.keys| ensures Stage(docs, o, i) {
      StageOf(b, o, docs, i);
    }
  }

  lemma StageOf(b: Value, o: Value, docs: seq<Value>, i: nat)
    requires b.Dict? && o.Dict? && WellFormed(o) && i < |o.keys| && |docs| == |o.keys| + 1
    requires docs[i] == Overlaid(b, o, i) && docs[i + 1] == Overlaid(b, o, i + 1)
    ensures Stage(docs, o, i)
  {
    OverlaidNext(b, o, i);
  }

  /** The overlay's entries one by one; `o` is its document. */
  method LayAll(result: Node, overlay: Node, ghost docs: seq<Value>, ghost o: Value) returns (ghost added: set<Node>)
    requires result.Valid() && result.isDict && overlay.Valid() && overlay.isDict && result !in overlay.repr
    requires InStages(docs, o) && result.Tree() == docs[0] && overlay.Tree() == o && overlay.keys == o.keys
    modifies result
    ensures result.Valid() && result.repr == old(result.repr) + added && fresh(added)
    ensures result.Tree() == docs[|o.keys|]
    decreases overlay.repr, 2
  {
    var i := 0;
    added := {};
    while i < |overlay.keys|
      invariant 0 <= i <= |overlay.keys| && overlay.keys == o.keys && overlay.repr == old(overlay.repr)
      invariant overlay.Valid() && overlay.Tree() == o
      invariant result.Valid() && result.repr == old(result.repr) + added && fresh(added)
      invariant result.Tree() == docs[i]
    {
      ghost var more := LayNext(result, overlay, i, docs, o);
      added := added + more;
      i := i + 1;
    }
  }

  method LayNext(result: Node, overlay: Node, i: nat, ghost docs: seq<Value>, ghost o: Value) returns (ghost added: set<Node>)
    requires result.Valid() && result.isDict && overlay.Valid() && overlay.isDict && result !in overlay.repr
    requires InStages(docs, o) && i < |o.keys| && result.Tree() == docs[i] && overlay.Tree() == o && overlay.keys == o.keys
    modifies result
    ensures result.Valid() && result.repr == old(result.repr) + added && fresh(added)
    ensures result.Tree() == docs[i + 1]
    ensures overlay.Valid() && overlay.Tree() == o && overlay.keys == o.keys && overlay.repr == old(overlay.repr)
    decreases overlay.repr, 0
  {
    assert Stage(docs, o, i);
    overlay.Entry(overlay.keys[i]);
    added := LayEntry(result, overlay.keys[i], overlay.vals[overlay.keys[i]]);
    overlay.Kept();
  }

  /** What one overlay entry does to the document being built. */
  function Laying(d: Value, key: Key, v: Value): Value
    requires d.Dict?
  {
    Assign(d, key, if key in d.vals && d.vals[key].Dict? && v.Dict? then Merge(d.vals[key], v) else v)
  }

  lemma OverlaidNext(base: Value, overlay: Value, i: nat)
    requires base.Dict? && overlay.Dict? && WellFormed(overlay) && i < |overlay.keys|
    ensures Overlaid(base, overlay, i + 1) == Laying(Overlaid(base, overlay, i), overlay.keys[i], overlay.vals[overlay.keys[i]])
  {
    NotYetLaid(base, overlay, i, overlay.keys[i]);
  }

  method LayEntry(result: Node, key: Key, value: Node) returns (ghost added: set<Node>)
    requires result.Valid() && result.isDict && value.Valid() && result !in value.repr
    modifies result
    ensures result.Valid() && result.repr == old(result.repr) + added && fresh(added)
    ensures old(result.Tree()).Dict? && result.Tree() == Laying(old(result.Tree()), key, old(value.Tree()))
    decreases value.repr, 5
  {
    if key in result.vals && result.vals[key].isDict && value.isDict {
      added := MergeInto(result, key, value);
    } else {
      if key in result.vals { result.Entry(key); }
      added := CopyInto(result, key, value);
    }
  }

  method MergeInto(result: Node, key: Key, value: Node) returns (ghost added: set<Node>)
    requires result.Valid() && result.isDict && key in result.vals && result.vals[key].isDict
    requires value.Valid() && value.isDict && result !in value.repr
    modifies result
    ensures result.Valid() && result.repr == old(result.repr) + added && fresh(added)
    ensures old(result.Tree()).Dict? && result.Tree() == Laying(old(result.Tree()), key, old(value.Tree()))
    decreases value.repr, 4
  {
    result.Entry(key);
    ghost var d, v := result.Tree(), value.Tree();
    var merged := DeepMergeNodes(result.vals[key], value);
    result.Kept();
    assert merged.Tree() == Merge(d.vals[key], v);
    result.Put(key, merged);
    added := merged.repr;
  }
}
