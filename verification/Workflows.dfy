/** Workflow definitions: bringing node payloads into one shape, and validating the graph. */
module Workflows {
  import opened Wrappers
  import Whitespace

  /** A payload value: absent or null, a string, or anything else, with the text that `str` makes of
      it. */
  datatype Json =
    | Null
    | Str(s: string)
    | Other(text: string, truthy: bool)
  {
    predicate Truthy() {
      match this
      case Null => false
      case Str(s) => s != ""
      case Other(_, truthy) => truthy
    }

    function AsString(): string {
      match this
      case Null => "None"
      case Str(s) => s
      case Other(text, _) => text
    }
  }

  /** A node payload; `nextIds` is the successor list, if that field holds a list. */
  datatype Node = Node(id: Json, nodeId: Json, kind: Json, nextIds: Option<seq<Json>>, nextId: Json)

  function Upper(s: string): (r: string)
    ensures |r| == |s|
    ensures forall i | 0 <= i < |s| :: r[i] == if 'a' <= s[i] <= 'z' then s[i] - 32 as char else s[i]
  {
    if s == "" then "" else [if 'a' <= s[0] <= 'z' then s[0] - 32 as char else s[0]] + Upper(s[1..])
  }

  function Lower(s: string): (r: string)
    ensures |r| == |s|
    ensures forall i | 0 <= i < |s| :: r[i] == if 'A' <= s[i] <= 'Z' then s[i] + 32 as char else s[i]
  {
    if s == "" then "" else [if 'A' <= s[0] <= 'Z' then s[0] + 32 as char else s[0]] + Lower(s[1..])
  }

  /** The list entries that are not null, as text, in order. */
  function Texts(items: seq<Json>): seq<string> {
    if items == [] then []
    else (if items[0].Null? then [] else [items[0].AsString()]) + Texts(items[1..])
  }

  function Strings(texts: seq<string>): seq<Json> {
    if texts == [] then [] else [Str(texts[0])] + Strings(texts[1..])
  }

  function FromList(raw: Option<seq<Json>>): seq<string> {
    if raw.Some? then Texts(raw.value) else []
  }

  /** The successors of a node in their order: the list, then the single one unless it is listed. */
  function Successors(n: Node): seq<string> {
    var listed := FromList(n.nextIds);
    if n.nextId.Truthy() && n.nextId.AsString() !in listed then listed + [n.nextId.AsString()] else listed
  }

  function KindOf(n: Node): Option<string> {
    if n.kind.Null? then None else Some(Upper(n.kind.AsString()))
  }

  /** A node in the common shape. */
  function Normalised(n: Node): Node {
    n.(kind := if KindOf(n).Some? then Str(KindOf(n).value) else Null,
       nextIds := Some(Strings(Successors(n))))
  }

  lemma {:induction false} TextsOfStrings(texts: seq<string>)
    ensures Texts(Strings(texts)) == texts
  {
    if texts != [] {
      var strings := Strings(texts);
      assert strings[0] == Str(texts[0]) && strings[1..] == Strings(texts[1..]);
      TextsOfStrings(texts[1..]);
    }
  }

  lemma UpperTwice(s: string)
    ensures Upper(Upper(s)) == Upper(s)
  {
  }

  /** Normalising keeps kind and successors, in their order, so doing it again changes nothing. */
  lemma NormalisedTwice(n: Node)
    ensures Successors(Normalised(n)) == Successors(n)
    ensures KindOf(Normalised(n)) == KindOf(n)
    ensures Normalised(Normalised(n)) == Normalised(n)
  {
    TextsOfStrings(Successors(n));
    UpperTwice(n.kind.AsString());
  }

  /** The list contributes the text of each entry that is not null, in order. */
  lemma {:induction false} TextsMean(a: seq<Json>, b: seq<Json>)
    ensures Texts(a + b) == Texts(a) + Texts(b)
    ensures forall x: Json :: Texts([x]) == if x.Null? then [] else [x.AsString()]
  {
    forall x: Json ensures Texts([x]) == if x.Null? then [] else [x.AsString()] {
      assert [x][1..] == [] && Texts([]) == [];
    }
    if a == [] {
      assert a + b == b;
    } else {
      assert (a + b)[1..] == a[1..] + b;
      TextsMean(a[1..], b);
    }
  }

  /** The single successor goes behind the list unless the list has it; a kind is compared in upper case,
      an id in lower case; the `id` field counts before `node_id`. */
  lemma NodeReadsAs(n: Node)
    ensures !n.nextId.Truthy() || n.nextId.AsString() in FromList(n.nextIds) ==> Successors(n) == FromList(n.nextIds)
    ensures n.nextId.Truthy() && n.nextId.AsString() !in FromList(n.nextIds) ==> Successors(n) == FromList(n.nextIds) + [n.nextId.AsString()]
    ensures n.kind.Null? <==> KindOf(n).None?
    ensures KindOf(n).Some? ==> |KindOf(n).value| == |n.kind.AsString()|
    ensures KindOf(n).Some? ==> forall i | 0 <= i < |n.kind.AsString()| ::
      KindOf(n).value[i] == if 'a' <= n.kind.AsString()[i] <= 'z' then n.kind.AsString()[i] - 32 as char else n.kind.AsString()[i]
    ensures n.id.Truthy() ==> OwnId(n) == n.id
    ensures !n.id.Truthy() && n.nodeId.Truthy() ==> OwnId(n) == n.nodeId
    ensures !n.id.Truthy() && !n.nodeId.Truthy() ==> OwnId(n) == Str("")
  {
  }

  /** Nothing is a successor that neither the list nor the single field names, and no successor is
      lost: the listed ones come first, in the order of the list. */
  lemma SuccessorsComplete(n: Node)
    ensures FromList(n.nextIds) <= Successors(n)
    ensures forall t :: t in Successors(n) <==> t in FromList(n.nextIds) || (n.nextId.Truthy() && t == n.nextId.AsString())
  {
  }

  // ---- Validation ------------------------------------------------------------------------------

  /** A dictionary of nodes in its order. */
  type Nodes = seq<(string, Node)>

  function Keys(nodes: Nodes): set<string> {
    set i | 0 <= i < |nodes| :: nodes[i].0
  }

  const START_IDS: set<string> := { "start", "start_node", "node-start", "node_start" }
  const END_IDS: set<string> := { "end", "end_node", "node-end", "node_end" }

  datatype Issue =
    | NoName | NoNodes | NoStart | ManyStarts | StartRenamed | StartUnconnected
    | NoEnd | ManyEnds | EndRenamed | Dangling(node: string, next: string)

  function OfKind(nodes: Nodes, kind: string): seq<Node> {
    if nodes == [] then []
    else (if KindOf(nodes[0].1) == Some(kind) then [nodes[0].1] else []) + OfKind(nodes[1..], kind)
  }

  /** The id a node gives itself. One that is neither empty nor a string makes the validation fail. */
  function OwnId(n: Node): Json {
    if n.id.Truthy() then n.id else if n.nodeId.Truthy() then n.nodeId else Str("")
  }

  predicate Named(n: Node, ids: set<string>) {
    OwnId(n).Str? && Lower(OwnId(n).s) in ids
  }

  predicate Unreadable(ofKind: seq<Node>) {
    |ofKind| == 1 && !OwnId(ofKind[0]).Str?
  }

  predicate Fails(nodes: Nodes) {
    Unreadable(OfKind(nodes, "START")) || Unreadable(OfKind(nodes, "END"))
  }

  function DanglingOf(key: string, successors: seq<string>, keys: set<string>): seq<Issue> {
    if successors == [] then []
    else (if successors[0] in keys then [] else [Dangling(key, successors[0])]) + DanglingOf(key, successors[1..], keys)
  }

  function AllDangling(nodes: Nodes, keys: set<string>): seq<Issue> {
    if nodes == [] then [] else DanglingOf(nodes[0].0, Successors(nodes[0].1), keys) + AllDangling(nodes[1..], keys)
  }

  function StartIssues(starts: seq<Node>): seq<Issue> {
    if starts == [] then [NoStart]
    else if |starts| > 1 then [ManyStarts]
    else (if Named(starts[0], START_IDS) then [] else [StartRenamed])
         + (if Successors(starts[0]) == [] then [StartUnconnected] else [])
  }

  function EndIssues(ends: seq<Node>): seq<Issue> {
    if ends == [] then [NoEnd]
    else if |ends| > 1 then [ManyEnds]
    else if Named(ends[0], END_IDS) then [] else [EndRenamed]
  }

  function BasicIssues(name: Option<string>, nodes: Nodes): seq<Issue> {
    (if name.None? || Whitespace.Strip(name.value) == "" then [NoName] else [])
    + (if nodes == [] then [NoNodes] else [])
  }

  function IssuesOf(name: Option<string>, nodes: Nodes): seq<Issue> {
    BasicIssues(name, nodes)
    + StartIssues(OfKind(nodes, "START")) + EndIssues(OfKind(nodes, "END")) + AllDangling(nodes, Keys(nodes))
  }

  /** Node i is the only one of its kind. */
  ghost predicate OnlyOne(nodes: Nodes, kind: string, i: int) {
    0 <= i < |nodes| && forall j | 0 <= j < |nodes| :: KindOf(nodes[j].1) == Some(kind) <==> j == i
  }

  /** Every successor of every node is a node. */
  ghost predicate Closed(nodes: Nodes) {
    forall i, next | 0 <= i < |nodes| && next in Successors(nodes[i].1) :: next in Keys(nodes)
  }

  /** What a valid definition is. */
  ghost predicate Sound(name: Option<string>, nodes: Nodes) {
    && name.Some? && Whitespace.Strip(name.value) != ""
    && (exists i :: OnlyOne(nodes, "START", i) && Named(nodes[i].1, START_IDS) && Successors(nodes[i].1) != [])
    && (exists i :: OnlyOne(nodes, "END", i) && Named(nodes[i].1, END_IDS))
    && Closed(nodes)
  }

  lemma {:induction false} OfKindMeans(nodes: Nodes, kind: string)
    ensures OfKind(nodes, kind) == [] <==> forall j | 0 <= j < |nodes| :: KindOf(nodes[j].1) != Some(kind)
    ensures |OfKind(nodes, kind)| == 1 <==> exists i :: OnlyOne(nodes, kind, i)
    ensures forall i | OnlyOne(nodes, kind, i) :: OfKind(nodes, kind) == [nodes[i].1]
  {
    if nodes != [] {
      var rest := nodes[1..];
      OfKindMeans(rest, kind);
      var here := KindOf(nodes[0].1) == Some(kind);
      if here {
        if OfKind(rest, kind) == [] { assert OnlyOne(nodes, kind, 0); }
        forall i | OnlyOne(nodes, kind, i) ensures i == 0 && OfKind(rest, kind) == [] {
          assert KindOf(nodes[0].1) == Some(kind);
          assert forall j | 0 <= j < |rest| :: rest[j] == nodes[j + 1];
        }
      } else {
        forall i | OnlyOne(rest, kind, i) ensures OnlyOne(nodes, kind, i + 1) {
          assert forall j | 0 < j < |nodes| :: nodes[j] == rest[j - 1];
        }
        forall i | OnlyOne(nodes, kind, i) ensures OnlyOne(rest, kind, i - 1) && nodes[i] == rest[i - 1] {
          assert forall j | 0 <= j < |rest| :: rest[j] == nodes[j + 1];
        }
      }
    }
  }

  lemma {:induction false} DanglingMeans(key: string, successors: seq<string>, keys: set<string>)
    ensures DanglingOf(key, successors, keys) == [] <==> forall next | next in successors :: next in keys
  {
    if successors != [] {
      DanglingMeans(key, successors[1..], keys);
      assert forall next :: next in successors <==> next == successors[0] || next in successors[1..];
    }
  }

  lemma {:induction false} AllDanglingMeans(nodes: Nodes, keys: set<string>)
    ensures AllDangling(nodes, keys) == [] <==>
            forall i, next | 0 <= i < |nodes| && next in Successors(nodes[i].1) :: next in keys
  {
    if nodes != [] {
      DanglingMeans(nodes[0].0, Successors(nodes[0].1), keys);
      AllDanglingMeans(nodes[1..], keys);
      assert forall i | 0 < i < |nodes| :: nodes[i] == nodes[1..][i - 1];
      assert forall i | 0 <= i < |nodes| - 1 :: nodes[1..][i] == nodes[i + 1];
    }
  }

  /** No issue is reported exactly when the definition is sound. */
  lemma StartIssuesMean(nodes: Nodes)
    ensures StartIssues(OfKind(nodes, "START")) == [] <==>
            exists i :: OnlyOne(nodes, "START", i) && Named(nodes[i].1, START_IDS) && Successors(nodes[i].1) != []
  {
    OfKindMeans(nodes, "START");
  }

  lemma EndIssuesMean(nodes: Nodes)
    ensures EndIssues(OfKind(nodes, "END")) == [] <==> exists i :: OnlyOne(nodes, "END", i) && Named(nodes[i].1, END_IDS)
  {
    OfKindMeans(nodes, "END");
  }

  lemma BasicIssuesMean(name: Option<string>, nodes: Nodes)
    ensures BasicIssues(name, nodes) == [] <==> name.Some? && Whitespace.Strip(name.value) != "" && nodes != []
  {
  }

  lemma NoIssueExactlyWhenSound(name: Option<string>, nodes: Nodes)
    ensures IssuesOf(name, nodes) == [] <==> Sound(name, nodes)
  {
    BasicIssuesMean(name, nodes);
    StartIssuesMean(nodes);
    EndIssuesMean(nodes);
    AllDanglingMeans(nodes, Keys(nodes));
    AllEmpty(BasicIssues(name, nodes), StartIssues(OfKind(nodes, "START")), EndIssues(OfKind(nodes, "END")), AllDangling(nodes, Keys(nodes)));
  }

  lemma AllEmpty(a: seq<Issue>, b: seq<Issue>, c: seq<Issue>, d: seq<Issue>)
    ensures a + b + c + d == [] <==> a == [] && b == [] && c == [] && d == []
  {
    assert |a + b + c + d| == |a| + |b| + |c| + |d|;
  }

  // ---- Which issue is reported --------------------------------------------------------------------

  lemma {:induction false} DanglingExactly(key: string, successors: seq<string>, keys: set<string>, node: string, next: string)
    ensures Dangling(node, next) in DanglingOf(key, successors, keys) <==> node == key && next in successors && next !in keys
    ensures forall issue | issue in DanglingOf(key, successors, keys) :: issue.Dangling?
  {
    if successors != [] {
      DanglingExactly(key, successors[1..], keys, node, next);
      assert next in successors <==> next == successors[0] || next in successors[1..];
    }
  }

  /** A dangling reference is reported with the node that has it and the node it names, in that order. */
  lemma {:induction false} AllDanglingExactly(nodes: Nodes, keys: set<string>, node: string, next: string)
    ensures Dangling(node, next) in AllDangling(nodes, keys) <==>
            exists i :: 0 <= i < |nodes| && nodes[i].0 == node && next in Successors(nodes[i].1) && next !in keys
    ensures forall issue | issue in AllDangling(nodes, keys) :: issue.Dangling?
  {
    if nodes != [] {
      DanglingExactly(nodes[0].0, Successors(nodes[0].1), keys, node, next);
      AllDanglingExactly(nodes[1..], keys, node, next);
      assert forall i | 0 < i < |nodes| :: nodes[i] == nodes[1..][i - 1];
      assert forall i | 0 <= i < |nodes| - 1 :: nodes[1..][i] == nodes[i + 1];
    }
  }

  ghost predicate NoneOfKind(nodes: Nodes, kind: string) {
    forall j | 0 <= j < |nodes| :: KindOf(nodes[j].1) != Some(kind)
  }

  ghost predicate SeveralOfKind(nodes: Nodes, kind: string) {
    !NoneOfKind(nodes, kind) && forall i :: !OnlyOne(nodes, kind, i)
  }

  lemma BasicIssuesExactly(name: Option<string>, nodes: Nodes)
    ensures var issues := BasicIssues(name, nodes);
      && (NoName in issues <==> name.None? || Whitespace.Strip(name.value) == "")
      && (NoNodes in issues <==> nodes == [])
      && forall issue | issue in issues :: issue in {NoName, NoNodes}
  {
  }

  lemma StartIssuesExactly(nodes: Nodes)
    ensures var issues := StartIssues(OfKind(nodes, "START"));
      && (NoStart in issues <==> NoneOfKind(nodes, "START"))
      && (ManyStarts in issues <==> SeveralOfKind(nodes, "START"))
      && (StartRenamed in issues <==> exists i :: OnlyOne(nodes, "START", i) && !Named(nodes[i].1, START_IDS))
      && (StartUnconnected in issues <==> exists i :: OnlyOne(nodes, "START", i) && Successors(nodes[i].1) == [])
      && forall issue | issue in issues :: issue in {NoStart, ManyStarts, StartRenamed, StartUnconnected}
  {
    OfKindMeans(nodes, "START");
  }

  lemma EndIssuesExactly(nodes: Nodes)
    ensures var issues := EndIssues(OfKind(nodes, "END"));
      && (NoEnd in issues <==> NoneOfKind(nodes, "END"))
      && (ManyEnds in issues <==> SeveralOfKind(nodes, "END"))
      && (EndRenamed in issues <==> exists i :: OnlyOne(nodes, "END", i) && !Named(nodes[i].1, END_IDS))
      && forall issue | issue in issues :: issue in {NoEnd, ManyEnds, EndRenamed}
  {
    OfKindMeans(nodes, "END");
  }

  /** Every issue is reported exactly when there is that fault. */
  lemma IssuesExactly(name: Option<string>, nodes: Nodes, node: string, next: string)
    ensures var issues := IssuesOf(name, nodes);
      && (NoName in issues <==> name.None? || Whitespace.Strip(name.value) == "")
      && (NoNodes in issues <==> nodes == [])
      && (NoStart in issues <==> NoneOfKind(nodes, "START"))
      && (ManyStarts in issues <==> SeveralOfKind(nodes, "START"))
      && (StartRenamed in issues <==> exists i :: OnlyOne(nodes, "START", i) && !Named(nodes[i].1, START_IDS))
      && (StartUnconnected in issues <==> exists i :: OnlyOne(nodes, "START", i) && Successors(nodes[i].1) == [])
      && (NoEnd in issues <==> NoneOfKind(nodes, "END"))
      && (ManyEnds in issues <==> SeveralOfKind(nodes, "END"))
      && (EndRenamed in issues <==> exists i :: OnlyOne(nodes, "END", i) && !Named(nodes[i].1, END_IDS))
      && (Dangling(node, next) in issues <==>
            exists i :: 0 <= i < |nodes| && nodes[i].0 == node && next in Successors(nodes[i].1) && next !in Keys(nodes))
  {
    BasicIssuesExactly(name, nodes);
    StartIssuesExactly(nodes);
    EndIssuesExactly(nodes);
    AllDanglingExactly(nodes, Keys(nodes), node, next);
    var a, b, c, d := BasicIssues(name, nodes), StartIssues(OfKind(nodes, "START")), EndIssues(OfKind(nodes, "END")), AllDangling(nodes, Keys(nodes));
    InItsPart(a, b, c, d);
  }

  /** The four groups of issues have none in common. */
  lemma InItsPart(a: seq<Issue>, b: seq<Issue>, c: seq<Issue>, d: seq<Issue>)
    requires forall x | x in a :: x in {NoName, NoNodes}
    requires forall x | x in b :: x in {NoStart, ManyStarts, StartRenamed, StartUnconnected}
    requires forall x | x in c :: x in {NoEnd, ManyEnds, EndRenamed}
    requires forall x | x in d :: x.Dangling?
    ensures forall x | x in {NoName, NoNodes} :: x in a + b + c + d <==> x in a
    ensures forall x | x in {NoStart, ManyStarts, StartRenamed, StartUnconnected} :: x in a + b + c + d <==> x in b
    ensures forall x | x in {NoEnd, ManyEnds, EndRenamed} :: x in a + b + c + d <==> x in c
    ensures forall x: Issue | x.Dangling? :: x in a + b + c + d <==> x in d
  {
    assert forall x :: x in a + b + c + d <==> x in a || x in b || x in c || x in d;
  }

  // ---- Walks -----------------------------------------------------------------------------------

  predicate Edge(nodes: Nodes, a: string, b: string) {
    exists i | 0 <= i < |nodes| :: nodes[i].0 == a && b in Successors(nodes[i].1)
  }

  predicate Walk(nodes: Nodes, w: seq<string>) {
    |w| > 0 && w[0] in Keys(nodes) && forall k | 0 <= k < |w| - 1 :: Edge(nodes, w[k], w[k + 1])
  }

  /** The connections are closed exactly when every walk, of any length and from any node, ends at a
      node: it can be followed without ever looking up a node that is not there. */
  lemma ClosedExactlyWhenWalksStayInside(nodes: Nodes)
    ensures Closed(nodes) <==> forall w | Walk(nodes, w) :: w[|w| - 1] in Keys(nodes)
  {
    if Closed(nodes) {
      forall w | Walk(nodes, w) ensures w[|w| - 1] in Keys(nodes) {
        if |w| > 1 { assert Edge(nodes, w[|w| - 2], w[|w| - 1]); }
      }
    }
    if i, next :| 0 <= i < |nodes| && next in Successors(nodes[i].1) && next !in Keys(nodes) {
      var w := [nodes[i].0, next];
      assert Edge(nodes, w[0], w[1]);
      assert Walk(nodes, w) && w[|w| - 1] == next;
    }
  }

  ghost predicate Reaches(nodes: Nodes, a: string, b: string) {
    exists w :: Walk(nodes, w) && w[0] == a && w[|w| - 1] == b
  }

  /** No edge leads out of these nodes. */
  ghost predicate Encloses(nodes: Nodes, inside: set<string>) {
    forall a, b | a in inside && Edge(nodes, a, b) :: b in inside
  }

  lemma {:induction false} Trapped(nodes: Nodes, inside: set<string>, w: seq<string>)
    requires Walk(nodes, w) && w[0] in inside && Encloses(nodes, inside)
    ensures w[|w| - 1] in inside
    decreases |w|
  {
    if |w| > 1 {
      assert Edge(nodes, w[|w| - 2], w[|w| - 1]);
      var shorter := w[..|w| - 1];
      assert forall k | 0 <= k < |shorter| - 1 :: Edge(nodes, w[k], w[k + 1]);
      Trapped(nodes, inside, shorter);
    }
  }

  lemma OneEdgeFurther(nodes: Nodes, w: seq<string>, b: string)
    requires Walk(nodes, w) && Edge(nodes, w[|w| - 1], b)
    ensures Walk(nodes, w + [b])
  {
    var longer := w + [b];
    forall k | 0 <= k < |longer| - 1 ensures Edge(nodes, longer[k], longer[k + 1]) {
      if k < |w| - 1 { assert Edge(nodes, w[k], w[k + 1]); }
    }
  }

  /** In closed connections one node can be reached from another exactly when no set of nodes holds
      the one and not the other and has no edge leading out. */
  lemma ReachesExactlyWhen(nodes: Nodes, a: string, b: string)
    requires Closed(nodes) && a in Keys(nodes)
    ensures Reaches(nodes, a, b) <==> !exists inside: set<string> :: a in inside && b !in inside && Encloses(nodes, inside)
  {
    if Reaches(nodes, a, b) {
      var w :| Walk(nodes, w) && w[0] == a && w[|w| - 1] == b;
      forall inside: set<string> | a in inside && Encloses(nodes, inside) ensures b in inside {
        Trapped(nodes, inside, w);
      }
    } else {
      var inside := set k | k in Keys(nodes) && Reaches(nodes, a, k);
      forall x, y | x in inside && Edge(nodes, x, y) ensures y in inside {
        var w :| Walk(nodes, w) && w[0] == a && w[|w| - 1] == x;
        OneEdgeFurther(nodes, w, y);
        assert (w + [y])[0] == a && (w + [y])[|w + [y]| - 1] == y;
      }
      assert Walk(nodes, [a]) && a in inside && b !in inside;
    }
  }

  /** Valid does not mean that the end can be reached: there is a sound definition in which it
      cannot. */
  lemma SoundWithoutReachingEnd() returns (nodes: Nodes, start: string, end: string)
    ensures exists name :: Sound(name, nodes)
    ensures OnlyOne(nodes, "START", 0) && nodes[0].0 == start && OnlyOne(nodes, "END", 1) && nodes[1].0 == end
    ensures !Reaches(nodes, start, end)
  {
    start, end := "start", "end";
    var first := Node(Str(start), Null, Str("START"), None, Str(start));
    var last := Node(Str(end), Null, Str("END"), None, Str(""));
    PlainStart();
    PlainEnd();
    nodes := [(start, first), (end, last)];
    StartToItself(first, last, nodes);
  }

  /** A definition whose start leads only back to itself is sound. */
  lemma StartToItself(start: Node, end: Node, nodes: Nodes)
    requires KindOf(start) == Some("START") && Named(start, START_IDS) && Successors(start) == ["start"]
    requires KindOf(end) == Some("END") && Named(end, END_IDS) && Successors(end) == []
    requires nodes == [("start", start), ("end", end)]
    ensures Sound(Some("w"), nodes) && OnlyOne(nodes, "START", 0) && OnlyOne(nodes, "END", 1)
    ensures !Reaches(nodes, "start", "end")
  {
    assert nodes[0].1 == start && nodes[1].1 == end;
    assert nodes[0].0 in Keys(nodes);
    SoundBy("w", nodes, 0, 1);
    OnlyBackToItself(nodes, "start", "end");
  }

  lemma SoundBy(name: string, nodes: Nodes, i: int, j: int)
    requires Whitespace.Strip(name) != "" && Closed(nodes)
    requires OnlyOne(nodes, "START", i) && Named(nodes[i].1, START_IDS) && Successors(nodes[i].1) != []
    requires OnlyOne(nodes, "END", j) && Named(nodes[j].1, END_IDS)
    ensures Sound(Some(name), nodes)
  {
  }

  lemma OnlyBackToItself(nodes: Nodes, a: string, b: string)
    requires Closed(nodes) && a in Keys(nodes) && a != b
    requires forall i | 0 <= i < |nodes| && nodes[i].0 == a :: Successors(nodes[i].1) == [a]
    ensures !Reaches(nodes, a, b)
  {
    var inside := {a};
    assert Encloses(nodes, inside);
    ReachesExactlyWhen(nodes, a, b);
  }

  lemma PlainStart()
    ensures PlainNode("start", "START", "start", START_IDS)
  {
    Plain("start", "START", "start", START_IDS);
  }

  lemma PlainEnd()
    ensures PlainNode("end", "END", "", END_IDS)
  {
    Plain("end", "END", "", END_IDS);
  }

  /** The node with this id, kind and single successor (none if empty) is what it looks like. */
  ghost predicate PlainNode(id: string, kind: string, next: string, ids: set<string>) {
    var n := Node(Str(id), Null, Str(kind), None, Str(next));
    KindOf(n) == Some(kind) && Named(n, ids) && Successors(n) == if next == "" then [] else [next]
  }

  lemma Plain(id: string, kind: string, next: string, ids: set<string>)
    requires id != "" && id in ids
    requires forall i | 0 <= i < |kind| :: !('a' <= kind[i] <= 'z')
    requires forall i | 0 <= i < |id| :: !('A' <= id[i] <= 'Z')
    ensures PlainNode(id, kind, next, ids)
  {
    assert Upper(kind) == kind && Lower(id) == id;
  }

  // ---- The two loops and the validation ----------------------------------------------------------

  function AllNormalised(nodes: Nodes): Nodes {
    seq(|nodes|, i requires 0 <= i < |nodes| => (nodes[i].0, Normalised(nodes[i].1)))
  }

  /** Validating the normalised nodes is validating the definition as it was written. */
  lemma {:induction false} NormalisingKeepsVerdict(nodes: Nodes)
    ensures Keys(AllNormalised(nodes)) == Keys(nodes)
    ensures Closed(AllNormalised(nodes)) <==> Closed(nodes)
    ensures forall kind, i :: OnlyOne(AllNormalised(nodes), kind, i) <==> OnlyOne(nodes, kind, i)
    ensures forall name :: Sound(name, AllNormalised(nodes)) <==> Sound(name, nodes)
  {
    var after := AllNormalised(nodes);
    forall i | 0 <= i < |nodes|
      ensures after[i].0 == nodes[i].0 && Successors(after[i].1) == Successors(nodes[i].1)
      ensures KindOf(after[i].1) == KindOf(nodes[i].1) && OwnId(after[i].1) == OwnId(nodes[i].1)
    {
      NormalisedTwice(nodes[i].1);
    }
    assert forall k :: k in Keys(after) <==> k in Keys(nodes);
  }

  method NormalizeSingleNode(node: Node) returns (payload: Node)
    ensures payload == Normalised(node)
  {
    payload := node.(kind := if node.kind.Null? then Null else Str(Upper(node.kind.AsString())));
    var nextIds: seq<string> := [];
    if payload.nextIds.Some? {
      nextIds := ListedIds(payload.nextIds.value);
    }
    if payload.nextId.Truthy() {
      var candidate := payload.nextId.AsString();
      if candidate !in nextIds { nextIds := nextIds + [candidate]; }
    }
    payload := payload.(nextIds := Some(Strings(nextIds)));
  }

  method NormalizeNodesConfig(definition: Nodes) returns (nodes: Nodes)
    ensures nodes == AllNormalised(definition)
  {
    nodes := [];
    var i := 0;
    while i < |definition|
      invariant 0 <= i <= |definition|
      invariant nodes == AllNormalised(definition)[..i]
    {
      var payload := NormalizeSingleNode(definition[i].1);
      nodes := nodes + [(definition[i].0, payload)];
      i := i + 1;
    }
  }

  lemma TextsFrom(ids: seq<string>, items: seq<Json>, i: nat)
    requires i < |items|
    ensures ids + Texts(items[i..]) == (if items[i].Null? then ids else ids + [items[i].AsString()]) + Texts(items[i + 1..])
  {
    assert items[i..][1..] == items[i + 1..];
    assert Texts(items[i..]) == (if items[i].Null? then [] else [items[i].AsString()]) + Texts(items[i + 1..]);
  }

  method ListedIds(items: seq<Json>) returns (ids: seq<string>)
    ensures ids == Texts(items)
  {
    ids := [];
    var i := 0;
    while i < |items|
      invariant 0 <= i <= |items|
      invariant ids + Texts(items[i..]) == Texts(items)
    {
      TextsFrom(ids, items, i);
      if !items[i].Null? { ids := ids + [items[i].AsString()]; }
      i := i + 1;
    }
  }

  lemma DanglingFrom(issues: seq<Issue>, nodes: Nodes, i: nat, keys: set<string>)
    requires i < |nodes|
    ensures issues + AllDangling(nodes[i..], keys)
            == issues + DanglingOf(nodes[i].0, Successors(nodes[i].1), keys) + AllDangling(nodes[i + 1..], keys)
  {
    assert nodes[i..][1..] == nodes[i + 1..];
    assert AllDangling(nodes[i..], keys) == DanglingOf(nodes[i].0, Successors(nodes[i].1), keys) + AllDangling(nodes[i + 1..], keys);
  }

  /** The connection check: an issue for every reference to a node that is not there, in order. */
  method CheckConnections(nodes: Nodes) returns (issues: seq<Issue>)
    ensures issues == AllDangling(nodes, Keys(nodes))
  {
    issues := [];
    var i := 0;
    while i < |nodes|
      invariant 0 <= i <= |nodes|
      invariant issues + AllDangling(nodes[i..], Keys(nodes)) == AllDangling(nodes, Keys(nodes))
    {
      DanglingFrom(issues, nodes, i, Keys(nodes));
      var found := CheckNode(nodes[i].0, Successors(nodes[i].1), Keys(nodes));
      issues := issues + found;
      i := i + 1;
    }
  }

  lemma DanglingOfFrom(issues: seq<Issue>, key: string, successors: seq<string>, j: nat, keys: set<string>)
    requires j < |successors|
    ensures issues + DanglingOf(key, successors[j..], keys)
            == (if successors[j] in keys then issues else issues + [Dangling(key, successors[j])]) + DanglingOf(key, successors[j + 1..], keys)
  {
    assert successors[j..][1..] == successors[j + 1..];
    assert DanglingOf(key, successors[j..], keys)
           == (if successors[j] in keys then [] else [Dangling(key, successors[j])]) + DanglingOf(key, successors[j + 1..], keys);
  }

  method CheckNode(key: string, successors: seq<string>, keys: set<string>) returns (issues: seq<Issue>)
    ensures issues == DanglingOf(key, successors, keys)
  {
    issues := [];
    var j := 0;
    while j < |successors|
      invariant 0 <= j <= |successors|
      invariant issues + DanglingOf(key, successors[j..], keys) == DanglingOf(key, successors, keys)
    {
      DanglingOfFrom(issues, key, successors, j, keys);
      if successors[j] !in keys { issues := issues + [Dangling(key, successors[j])]; }
      j := j + 1;
    }
  }

  datatype Answer = Rejected | Checked(valid: bool, issues: seq<Issue>)

  lemma NormalisedVerdict(name: Option<string>, nodes: Nodes)
    ensures IssuesOf(name, AllNormalised(nodes)) == [] <==> Sound(name, nodes)
    ensures Fails(AllNormalised(nodes)) <==> Fails(nodes)
  {
    NoIssueExactlyWhenSound(name, AllNormalised(nodes));
    NormalisingKeepsVerdict(nodes);
    NormalisedOfKind(nodes, "START");
    NormalisedOfKind(nodes, "END");
  }

  method ValidateWorkflow(name: Option<string>, definition: Nodes) returns (answer: Answer)
    ensures answer.Rejected? <==> Fails(definition)
    ensures answer.Checked? ==> (answer.valid <==> Sound(name, definition))
    ensures answer.Checked? ==> answer.issues == IssuesOf(name, AllNormalised(definition))
  {
    var nodes := NormalizeNodesConfig(definition);
    NormalisedVerdict(name, definition);
    answer := Report(name, nodes);
  }

  method CheckBasics(name: Option<string>, nodes: Nodes) returns (issues: seq<Issue>)
    ensures issues == BasicIssues(name, nodes)
  {
    issues := [];
    if name.None? || Whitespace.Strip(name.value) == "" { issues := issues + [NoName]; }
    if nodes == [] { issues := issues + [NoNodes]; }
  }

  method Report(name: Option<string>, nodes: Nodes) returns (answer: Answer)
    ensures answer == if Fails(nodes) then Rejected else Checked(IssuesOf(name, nodes) == [], IssuesOf(name, nodes))
  {
    var issues := CheckBasics(name, nodes);
    var starts, ends := OfKind(nodes, "START"), OfKind(nodes, "END");
    if Unreadable(starts) { return Rejected; }
    issues := issues + StartIssues(starts);
    if Unreadable(ends) { return Rejected; }
    issues := issues + EndIssues(ends);
    var dangling := CheckConnections(nodes);
    issues := issues + dangling;
    return Checked(|issues| == 0, issues);
  }

  lemma {:induction false} NormalisedOfKind(nodes: Nodes, kind: string)
    ensures |OfKind(AllNormalised(nodes), kind)| == |OfKind(nodes, kind)|
    ensures forall i | 0 <= i < |OfKind(nodes, kind)| :: OwnId(OfKind(AllNormalised(nodes), kind)[i]) == OwnId(OfKind(nodes, kind)[i])
    decreases |nodes|
  {
    if nodes != [] {
      var after := AllNormalised(nodes);
      NormalisedTwice(nodes[0].1);
      assert after[1..] == AllNormalised(nodes[1..]);
      NormalisedOfKind(nodes[1..], kind);
    }
  }
}
