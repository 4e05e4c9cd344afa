/** The text-node extractor of `scripts/extract_nodes.py`: a walk over the design
    document's JSON tree that keeps every `SHAPE_WITH_TEXT` node with non-blank text
    and emits an `{id, name, text}` record for it, in pre-order. */
module ExtractNodes {
  import opened Wrappers
  import opened Whitespace

  /** The one node type whose text is extracted. */
  const ShapeWithText: string := "SHAPE_WITH_TEXT"

  /** A node of the document tree, reduced to the keys the extractor reads. Each string
      key may be absent. An absent `children` key reads as `[]` (`node.get("children", [])`),
      so it is represented by the empty sequence. */
  datatype Node = Node(
    nodeType: Option<string>,
    characters: Option<string>,
    id: Option<string>,
    name: Option<string>,
    children: seq<Node>)

  /** The loaded JSON file; its `document` key may be absent. */
  datatype Root = Root(document: Option<Node>)

  /** The `{}` that stands in for a missing `document`: no keys at all. */
  const EmptyNode: Node := Node(None, None, None, None, [])

  /** One extracted record. */
  datatype TextNode = TextNode(id: string, name: string, text: string)

  /** The exception the walk can raise: `node["id"]` on a node without that key. */
  datatype ExtractError = KeyError(key: string)

  type Extraction = Result<seq<TextNode>, ExtractError>

  /** The type test of the walk: the `type` key is present and exactly `SHAPE_WITH_TEXT`. */
  predicate IsTextShape(n: Node) {
    n.nodeType == Some(ShapeWithText)
  }

  /** The node's text as the walk sees it: `characters` (default `""`) stripped. */
  function TextOf(n: Node): string {
    Strip(n.characters.GetOr(""))
  }

  /** A node the walk emits a record for (or fails on, when it has no `id`). */
  predicate Qualifies(n: Node) {
    IsTextShape(n) && TextOf(n) != []
  }

  /** The record emitted for a qualifying node; `name` defaults to `""`. */
  function RecordOf(n: Node): TextNode
    requires n.id.Some?
  {
    TextNode(n.id.value, n.name.GetOr(""), TextOf(n))
  }

  // ---------------------------------------------------------------------------
  // Reference definition: the qualifying nodes of the pre-order listing

  /** Every node of the tree rooted at `n`, in pre-order. */
  function Flatten(n: Node): seq<Node>
    decreases n
  {
    [n] + FlattenAll(n.children)
  }

  /** The pre-order listings of `cs`, left to right. */
  function FlattenAll(cs: seq<Node>): seq<Node>
    decreases cs
  {
    if cs == [] then [] else Flatten(cs[0]) + FlattenAll(cs[1..])
  }

  /** The records of the qualifying nodes of `ns`, in order, or the `KeyError` raised by
      the first qualifying node without an `id`. */
  function Collect(ns: seq<Node>): Extraction {
    if ns == [] then Success([])
    else if !Qualifies(ns[0]) then Collect(ns[1..])
    else if ns[0].id.None? then Failure(KeyError("id"))
    else
      match Collect(ns[1..])
      case Success(rs) => Success([RecordOf(ns[0])] + rs)
      case Failure(e) => Failure(e)
  }

  /** What extracting from the tree rooted at `n` yields. */
  function Expected(n: Node): Extraction {
    Collect(Flatten(n))
  }

  /** Two results in sequence, as `out += traverse(child)` combines them: the first
      failure wins, and otherwise the records are concatenated. */
  function Then(a: Extraction, b: Extraction): Extraction {
    match a
    case Failure(e) => Failure(e)
    case Success(x) =>
      match b
      case Failure(e) => Failure(e)
      case Success(y) => Success(x + y)
  }

  /** The number of nodes of a tree. */
  function Size(n: Node): nat
    decreases n
  {
    1 + SizeAll(n.children)
  }

  function SizeAll(cs: seq<Node>): nat
    decreases cs
  {
    if cs == [] then 0 else Size(cs[0]) + SizeAll(cs[1..])
  }

  /** The number of qualifying nodes in `ns`. */
  function CountQualifying(ns: seq<Node>): (c: nat)
    ensures c <= |ns|
  {
    if ns == [] then 0 else (if Qualifies(ns[0]) then 1 else 0) + CountQualifying(ns[1..])
  }

  // ---------------------------------------------------------------------------
  // The walk

  /** `traverse(node)`: the node's own record (when it qualifies) followed by the records
      of its children's subtrees, left to right; a qualifying node without `id` raises. */
  method Traverse(node: Node) returns (r: Extraction)
    ensures r == Expected(node)
    decreases node
  {
    var out: seq<TextNode> := [];
    CollectSingle(node);
    if node.nodeType == Some(ShapeWithText) {
      var text := Strip(node.characters.GetOr(""));
      if text != [] {
        if node.id.None? {
          return Failure(KeyError("id"));
        }
        out := out + [TextNode(node.id.value, node.name.GetOr(""), text)];
        assert out == [RecordOf(node)];
      }
    }
    var children := node.children;
    LoopEntry(node, out);
    var i := 0;
    while i < |children|
      invariant 0 <= i <= |children|
      invariant Collect([node] + FlattenAll(children[..i])) == Success(out)
    {
      var sub := Traverse(children[i]);
      LoopStep(node, i, out, sub);
      if sub.Failure? {
        return sub;
      }
      out := out + sub.value;
      i := i + 1;
    }
    assert children[..i] == children;
    return Success(out);
  }

  /** Before the loop over the children, `out` holds what the node contributes itself. */
  lemma LoopEntry(node: Node, out: seq<TextNode>)
    requires Collect([node]) == Success(out)
    ensures Collect([node] + FlattenAll(node.children[..0])) == Success(out)
  {
    assert node.children[..0] == [] && [node] + FlattenAll([]) == [node];
  }

  /** One turn of the loop: on success the child's records extend `out`; on failure the
      exception is what the whole walk raises. */
  lemma LoopStep(node: Node, i: nat, out: seq<TextNode>, sub: Extraction)
    requires i < |node.children|
    requires Collect([node] + FlattenAll(node.children[..i])) == Success(out)
    requires sub == Expected(node.children[i])
    ensures sub.Success? ==> Collect([node] + FlattenAll(node.children[..i + 1])) == Success(out + sub.value)
    ensures sub.Failure? ==> Expected(node) == sub
  {
    var cs := node.children;
    var done := [node] + FlattenAll(cs[..i]);
    FlattenAllPrefix(cs, i);
    assert [node] + FlattenAll(cs[..i + 1]) == done + Flatten(cs[i]);
    CollectAppend(done, Flatten(cs[i]));
    if sub.Failure? {
      FlattenAllAppend(cs[..i + 1], cs[i + 1..]);
      assert cs == cs[..i + 1] + cs[i + 1..];
      assert Flatten(node) == (done + Flatten(cs[i])) + FlattenAll(cs[i + 1..]);
      CollectAppend(done + Flatten(cs[i]), FlattenAll(cs[i + 1..]));
    }
  }

  /** `extract_text_nodes`, once the file is loaded: the walk from `root["document"]`,
      or from `{}` when that key is absent. */
  method ExtractTextNodes(root: Root) returns (r: Extraction)
    ensures r == Expected(root.document.GetOr(EmptyNode))
    ensures root.document.None? ==> r == Success([])
  {
    r := Traverse(root.document.GetOr(EmptyNode));
  }

  // ---------------------------------------------------------------------------
  // Lemmas

  lemma {:induction false} FlattenAllAppend(a: seq<Node>, b: seq<Node>)
    ensures FlattenAll(a + b) == FlattenAll(a) + FlattenAll(b)
  {
    if a == [] {
      assert a + b == b;
    } else {
      assert (a + b)[0] == a[0] && (a + b)[1..] == a[1..] + b;
      FlattenAllAppend(a[1..], b);
    }
  }

  /** The listing of the first `i + 1` children extends that of the first `i`. */
  lemma FlattenAllPrefix(cs: seq<Node>, i: nat)
    requires i < |cs|
    ensures FlattenAll(cs[..i + 1]) == FlattenAll(cs[..i]) + Flatten(cs[i])
  {
    FlattenAllAppend(cs[..i], [cs[i]]);
    assert cs[..i + 1] == cs[..i] + [cs[i]];
    assert FlattenAll([cs[i]]) == Flatten(cs[i]) + FlattenAll([]);
  }

  /** What a single node contributes by itself. */
  lemma CollectSingle(n: Node)
    ensures Collect([n]) == if !Qualifies(n) then Success([])
                            else if n.id.None? then Failure(KeyError("id"))
                            else Success([RecordOf(n)])
  {
    assert [n][1..] == [];
    if n.id.Some? {
      assert [RecordOf(n)] + [] == [RecordOf(n)];
    }
  }

  /** Collecting over a concatenation is collecting over each part in turn. */
  lemma {:induction false} CollectAppend(a: seq<Node>, b: seq<Node>)
    ensures Collect(a + b) == Then(Collect(a), Collect(b))
  {
    if a == [] {
      assert a + b == b;
      match Collect(b)
      case Failure(_) =>
      case Success(y) => assert [] + y == y;
    } else {
      assert (a + b)[0] == a[0] && (a + b)[1..] == a[1..] + b;
      CollectAppend(a[1..], b);
      if Qualifies(a[0]) && a[0].id.Some? {
        match Collect(a[1..])
        case Failure(_) =>
        case Success(x) =>
          match Collect(b)
          case Failure(_) =>
          case Success(y) => assert [RecordOf(a[0])] + (x + y) == ([RecordOf(a[0])] + x) + y;
      }
    }
  }

  /** The listing holds exactly the tree's nodes, the root first. */
  lemma {:induction false} FlattenSize(n: Node)
    ensures |Flatten(n)| == Size(n) && Flatten(n)[0] == n
    decreases n, 1
  {
    FlattenAllSize(n.children);
  }

  lemma {:induction false} FlattenAllSize(cs: seq<Node>)
    ensures |FlattenAll(cs)| == SizeAll(cs)
    decreases cs, 0
  {
    if cs != [] {
      FlattenSize(cs[0]);
      FlattenAllSize(cs[1..]);
    }
  }

  /** Collecting fails exactly when some qualifying node lacks an `id`. */
  lemma {:induction false} CollectFailsIff(ns: seq<Node>)
    ensures Collect(ns).Failure? <==> exists i :: 0 <= i < |ns| && Qualifies(ns[i]) && ns[i].id.None?
    ensures Collect(ns).Failure? ==> Collect(ns).error == KeyError("id")
  {
    if ns != [] {
      CollectFailsIff(ns[1..]);
      if exists i :: 0 <= i < |ns[1..]| && Qualifies(ns[1..][i]) && ns[1..][i].id.None? {
        var i :| 0 <= i < |ns[1..]| && Qualifies(ns[1..][i]) && ns[1..][i].id.None?;
        assert ns[i + 1] == ns[1..][i];
      }
      if exists i :: 0 <= i < |ns| && Qualifies(ns[i]) && ns[i].id.None? {
        var i :| 0 <= i < |ns| && Qualifies(ns[i]) && ns[i].id.None?;
        if i > 0 {
          assert ns[1..][i - 1] == ns[i];
        }
      }
    }
  }

  /** On success there is one record per qualifying node. */
  lemma {:induction false} CollectLength(ns: seq<Node>)
    requires Collect(ns).Success?
    ensures |Collect(ns).value| == CountQualifying(ns)
  {
    if ns != [] {
      CollectLength(ns[1..]);
    }
  }

  /** Every record comes from a qualifying node of `ns`: its `id`, its `name` (or `""`)
      and its stripped, non-blank text. */
  lemma {:induction false} CollectSound(ns: seq<Node>, rec: TextNode)
    requires Collect(ns).Success? && rec in Collect(ns).value
    ensures exists i :: 0 <= i < |ns| && Qualifies(ns[i]) && ns[i].id.Some? && rec == RecordOf(ns[i])
  {
    if Qualifies(ns[0]) && rec == RecordOf(ns[0]) {
    } else {
      CollectSound(ns[1..], rec);
      var i :| 0 <= i < |ns[1..]| && Qualifies(ns[1..][i]) && ns[1..][i].id.Some? && rec == RecordOf(ns[1..][i]);
      assert ns[i + 1] == ns[1..][i];
    }
  }

  /** Every qualifying node of `ns` has its record in the output. */
  lemma {:induction false} CollectComplete(ns: seq<Node>, i: nat)
    requires Collect(ns).Success?
    requires i < |ns| && Qualifies(ns[i])
    ensures ns[i].id.Some? && RecordOf(ns[i]) in Collect(ns).value
  {
    if i > 0 {
      assert ns[1..][i - 1] == ns[i];
      CollectComplete(ns[1..], i - 1);
    }
  }

  /** Every record carries non-blank text with no whitespace border, which stripping
      again leaves unchanged. */
  lemma {:induction false} RecordTextsStripped(ns: seq<Node>)
    requires Collect(ns).Success?
    ensures forall rec :: rec in Collect(ns).value ==>
              rec.text != [] && IsStripped(rec.text) && Strip(rec.text) == rec.text
  {
    forall rec | rec in Collect(ns).value
      ensures rec.text != [] && IsStripped(rec.text) && Strip(rec.text) == rec.text
    {
      CollectSound(ns, rec);
      var i :| 0 <= i < |ns| && Qualifies(ns[i]) && ns[i].id.Some? && rec == RecordOf(ns[i]);
      StripIdempotent(ns[i].characters.GetOr(""));
    }
  }

  /** The walk's own step: a node contributes its own record (if it qualifies) and then
      its children's results, concatenated left to right. */
  lemma ExpectedUnfolds(n: Node)
    ensures Expected(n) == Then(Collect([n]), ExpectedChildren(n.children))
  {
    CollectAppend([n], FlattenAll(n.children));
    ExpectedChildrenIsCollect(n.children);
  }

  /** The children's results in order, as the `for child in children` loop sees them. */
  function ExpectedChildren(cs: seq<Node>): Extraction {
    if cs == [] then Success([]) else Then(Expected(cs[0]), ExpectedChildren(cs[1..]))
  }

  lemma {:induction false} ExpectedChildrenIsCollect(cs: seq<Node>)
    ensures ExpectedChildren(cs) == Collect(FlattenAll(cs))
  {
    if cs != [] {
      ExpectedChildrenIsCollect(cs[1..]);
      CollectAppend(Flatten(cs[0]), FlattenAll(cs[1..]));
    }
  }

  /** A node whose type is not `SHAPE_WITH_TEXT`, or whose text is blank, emits nothing
      itself, yet its subtree is still searched. */
  lemma NonQualifyingEmitsNothing(n: Node)
    requires !Qualifies(n)
    ensures Expected(n) == ExpectedChildren(n.children)
  {
    ExpectedUnfolds(n);
    match ExpectedChildren(n.children)
    case Success(xs) => assert [] + xs == xs;
    case Failure(_) =>
  }

  /** A qualifying node with an `id` puts its own record first, before all the records
      of its subtree. */
  lemma OwnRecordFirst(n: Node)
    requires Qualifies(n) && n.id.Some?
    requires Expected(n).Success?
    ensures Expected(n).value[0] == RecordOf(n)
    ensures Expected(n) == Then(Success([RecordOf(n)]), ExpectedChildren(n.children))
  {
    ExpectedUnfolds(n);
    CollectSingle(n);
  }

  /** A qualifying node without `id` anywhere in the tree makes the whole walk fail with
      `KeyError('id')`, rather than emit a partial record. */
  lemma MissingIdFails(n: Node, d: nat)
    requires d < |Flatten(n)| && Qualifies(Flatten(n)[d]) && Flatten(n)[d].id.None?
    ensures Expected(n) == Failure(KeyError("id"))
  {
    CollectFailsIff(Flatten(n));
  }

  /** On success the output has exactly one record per qualifying node of the tree, so
      no more records than the tree has nodes. */
  lemma ExpectedCount(n: Node)
    requires Expected(n).Success?
    ensures |Expected(n).value| == CountQualifying(Flatten(n)) <= Size(n)
  {
    CollectLength(Flatten(n));
    FlattenSize(n);
  }

  /** Every output record was built from some qualifying node of the tree. */
  lemma ExpectedSound(n: Node, rec: TextNode)
    requires Expected(n).Success? && rec in Expected(n).value
    ensures exists d :: d in Flatten(n) && Qualifies(d) && d.id.Some? && rec == RecordOf(d)
  {
    var ns := Flatten(n);
    CollectSound(ns, rec);
    var i :| 0 <= i < |ns| && Qualifies(ns[i]) && ns[i].id.Some? && rec == RecordOf(ns[i]);
    assert ns[i] in ns;
  }

  /** Every qualifying node of the tree, at any depth and whether or not its ancestors
      qualify, has its record in a successful output. */
  lemma ExpectedComplete(n: Node, d: Node)
    requires Expected(n).Success?
    requires d in Flatten(n) && Qualifies(d)
    ensures d.id.Some? && RecordOf(d) in Expected(n).value
  {
    var ns := Flatten(n);
    var i :| 0 <= i < |ns| && ns[i] == d;
    CollectComplete(ns, i);
  }
}
