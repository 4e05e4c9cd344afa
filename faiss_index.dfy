/** The index builder and searcher of `scripts/build_faiss_index.py`: the embedded items
    become a flat vector index plus a metadata map of two parallel lists, `ids` and
    `texts`, and a search joins each returned position back to those lists. The index
    is abstract: a sequence of vectors that only grows, and a search engine given as a
    function from the stored vectors and a query to distances and positions. */
module FaissIndex {
  import opened Wrappers

  /** An embedding row. Its components are never inspected here. */
  type Vector = seq<real>

  /** `query_index`'s default number of neighbours. */
  const DefaultTopK: nat := 5

  /** One element of the embedded-items file; each key may be absent. */
  datatype Item = Item(id: Option<string>, text: Option<string>, embedding: Option<Vector>)

  /** Why `main` stops: a missing key (`KeyError`), embeddings of unequal length that
      NumPy cannot stack (`ValueError`), or `embs.shape[1]` read from the 1-dimensional
      array an empty item list gives (`IndexError`). */
  datatype BuildError = KeyError(key: string) | InhomogeneousShape | NoSecondAxis

  /** `[item[key] for item in items]`, where `field` reads `key`: every item's value in
      input order, or the `KeyError` of the first item without the key. */
  function Column<T>(items: seq<Item>, field: Item -> Option<T>, key: string): (r: Result<seq<T>, BuildError>)
    ensures r.Success? <==> forall i :: 0 <= i < |items| ==> field(items[i]).Some?
    ensures r.Failure? ==> r.error == KeyError(key)
    ensures r.Success? ==> |r.value| == |items|
    ensures r.Success? ==> forall i :: 0 <= i < |items| ==> r.value[i] == field(items[i]).value
  {
    if items == [] then Success([])
    else if field(items[0]).None? then Failure(KeyError(key))
    else
      match Column(items[1..], field, key)
      case Success(rest) => Success([field(items[0]).value] + rest)
      case Failure(e) => Failure(e)
  }

  /** All rows have one common length, so NumPy can stack them into a matrix. */
  predicate Rectangular(rows: seq<Vector>) {
    forall i, j :: 0 <= i < |rows| && 0 <= j < |rows| ==> |rows[i]| == |rows[j]|
  }

  /** What `main` computes before it touches the index: the matrix of rows, its width
      and the two metadata lists. */
  datatype Plan = Plan(dim: nat, rows: seq<Vector>, ids: seq<string>, texts: seq<string>)

  /** Lines 16-21 of `main`, in their order: stack the embeddings, collect the ids and
      the texts, and read the width of the matrix. */
  function PlanBuild(items: seq<Item>): (r: Result<Plan, BuildError>)
    ensures r.Success? ==> |r.value.rows| == |r.value.ids| == |r.value.texts| == |items| > 0
    ensures r.Success? ==> forall i :: 0 <= i < |items| ==> |r.value.rows[i]| == r.value.dim
    ensures r == Failure(NoSecondAxis) <==> items == []
    ensures r.Failure? && r.error.KeyError? ==> r.error.key in ["embedding", "id", "text"]
  {
    var rows :- Column(items, (it: Item) => it.embedding, "embedding");
    if !Rectangular(rows) then Failure(InhomogeneousShape)
    else
      var ids :- Column(items, (it: Item) => it.id, "id");
      var texts :- Column(items, (it: Item) => it.text, "text");
      if rows == [] then Failure(NoSecondAxis)
      else Success(Plan(|rows[0]|, rows, ids, texts))
  }

  /** The metadata value that is pickled: a map with exactly the keys `ids` and `texts`. */
  function Metadata(ids: seq<string>, texts: seq<string>): (m: map<string, seq<string>>)
    ensures m.Keys == {"ids", "texts"}
    ensures m["ids"] == ids && m["texts"] == texts
  {
    map["ids" := ids, "texts" := texts]
  }

  /** `faiss.IndexFlatL2`: a fixed dimension and the stored vectors, addressed by their
      zero-based insertion position. */
  class FlatIndex {
    const dim: nat
    var vectors: seq<Vector>

    /** Every stored vector has the index's dimension. */
    ghost predicate Valid()
      reads this
    {
      forall v :: v in vectors ==> |v| == dim
    }

    /** `IndexFlatL2(dim)`: an empty index. */
    constructor (dim: nat)
      ensures this.dim == dim && vectors == []
      ensures Valid()
    {
      this.dim := dim;
      vectors := [];
    }

    /** `ntotal`, the number of stored vectors. */
    function Count(): nat
      reads this
    {
      |vectors|
    }

    /** `index.add(x)`: append the rows, which must have the index's width, after the
        stored ones; nothing already stored moves. */
    method Add(rows: seq<Vector>)
      requires Valid()
      requires forall r :: r in rows ==> |r| == dim
      modifies this
      ensures Valid()
      ensures vectors == old(vectors) + rows
      ensures Count() == old(Count()) + |rows|
      ensures forall p :: 0 <= p < old(Count()) ==> vectors[p] == old(vectors[p])
    {
      vectors := vectors + rows;
    }

    /** `index.search(q, k)`: whatever the engine answers for the stored vectors. The
        index is read, not changed. */
    method Search(query: Vector, k: nat, engine: SearchEngine) returns (distances: seq<real>, labels: seq<int>)
      requires |query| == dim
      requires k > 0
      ensures (distances, labels) == engine(vectors, query, k)
    {
      distances, labels := engine(vectors, query, k).0, engine(vectors, query, k).1;
    }
  }

  /** The nearest-neighbour search FAISS performs, left abstract: from the stored vectors,
      a query and `k`, the distances and the positions of the neighbours found. */
  type SearchEngine = (seq<Vector>, Vector, nat) -> (seq<real>, seq<int>)

  /** A built index and the metadata written beside it. */
  datatype Built = Built(index: FlatIndex, meta: map<string, seq<string>>)

  /** The built pair holds exactly what the plan computed. */
  ghost predicate Realizes(b: Built, p: Plan)
    reads b.index
  {
    && b.index.Valid()
    && b.index.dim == p.dim
    && b.index.vectors == p.rows
    && b.meta == Metadata(p.ids, p.texts)
  }

  /** `main` without its file input and output: build the index from the stacked
      embeddings and the metadata from the ids and texts, or stop with the first error. */
  method Build(items: seq<Item>) returns (r: Result<Built, BuildError>)
    ensures PlanBuild(items).Failure? ==> r == Failure(PlanBuild(items).error)
    ensures PlanBuild(items).Success? ==>
              r.Success? && fresh(r.value.index) && Realizes(r.value, PlanBuild(items).value)
  {
    var embs := Column(items, (it: Item) => it.embedding, "embedding");
    if embs.Failure? {
      return Failure(embs.error);
    }
    if !Rectangular(embs.value) {
      return Failure(InhomogeneousShape);
    }
    var ids := Column(items, (it: Item) => it.id, "id");
    if ids.Failure? {
      return Failure(ids.error);
    }
    var texts := Column(items, (it: Item) => it.text, "text");
    if texts.Failure? {
      return Failure(texts.error);
    }
    if |embs.value| == 0 {
      return Failure(NoSecondAxis);
    }
    var dim := |embs.value[0]|;
    var index := new FlatIndex(dim);
    index.Add(embs.value);
    r := Success(Built(index, Metadata(ids.value, texts.value)));
  }

  // ---------------------------------------------------------------------------
  // Lemmas about the build

  /** A successful build keeps the three lists aligned with the input: position `p` of
      the matrix, of `ids` and of `texts` all come from item `p`, and every row has the
      index's width. */
  lemma PlanAligned(items: seq<Item>)
    requires PlanBuild(items).Success?
    ensures var p := PlanBuild(items).value;
            && |p.rows| == |p.ids| == |p.texts| == |items| > 0
            && (forall i :: 0 <= i < |items| ==>
                  && p.rows[i] == items[i].embedding.value
                  && p.ids[i] == items[i].id.value
                  && p.texts[i] == items[i].text.value)
            && (forall i :: 0 <= i < |items| ==> |p.rows[i]| == p.dim)
  {
  }

  /** The build succeeds exactly when the list is non-empty, every item has all three
      keys and the embeddings have one common length. */
  lemma PlanSucceedsIff(items: seq<Item>)
    ensures PlanBuild(items).Success? <==>
              && items != []
              && (forall i :: 0 <= i < |items| ==>
                    items[i].id.Some? && items[i].text.Some? && items[i].embedding.Some?)
              && Rectangular(Column(items, (it: Item) => it.embedding, "embedding").value)
  {
  }

  /** An empty item list fails at `embs.shape[1]`. */
  lemma EmptyBatchFails()
    ensures PlanBuild([]) == Failure(NoSecondAxis)
  {
  }

  /** Embeddings of unequal length fail at the stacking, before any id or text is read. */
  lemma RaggedBatchFails(items: seq<Item>, i: nat, j: nat)
    requires forall k :: 0 <= k < |items| ==> items[k].embedding.Some?
    requires i < |items| && j < |items|
    requires |items[i].embedding.value| != |items[j].embedding.value|
    ensures PlanBuild(items) == Failure(InhomogeneousShape)
  {
    var rows := Column(items, (it: Item) => it.embedding, "embedding").value;
    assert |rows[i]| != |rows[j]|;
  }

  // ---------------------------------------------------------------------------
  // The query join

  /** One printed result line: `id [distance] → text`. */
  datatype Hit = Hit(id: string, distance: real, text: string)

  /** Why the join stops: a missing metadata key (`KeyError`) or a position outside a
      list (`IndexError`). */
  datatype QueryError = MissingKey(key: string) | OutOfRange(position: int)

  /** `meta[key]`. */
  function Lookup(meta: map<string, seq<string>>, key: string): (r: Result<seq<string>, QueryError>)
    ensures r.Success? <==> key in meta
    ensures r.Success? ==> r.value == meta[key]
    ensures r.Failure? ==> r.error == MissingKey(key)
  {
    if key in meta then Success(meta[key]) else Failure(MissingKey(key))
  }

  /** Python's `xs[i]` on a list: a negative `i` counts from the end. */
  function PyIndex(xs: seq<string>, i: int): (r: Result<string, QueryError>)
    ensures r.Success? <==> -|xs| <= i < |xs|
    ensures 0 <= i < |xs| ==> r == Success(xs[i])
    ensures -|xs| <= i < 0 ==> r == Success(xs[|xs| + i])
  {
    if 0 <= i < |xs| then Success(xs[i])
    else if -|xs| <= i < 0 then Success(xs[|xs| + i])
    else Failure(OutOfRange(i))
  }

  /** Lines 47-48 as written: for each `(dist, idx)` of `zip(D[0], I[0])`, the line
      `meta['ids'][idx] [dist] → meta['texts'][idx]`, with Python's indexing. FAISS pads
      `I[0]` with -1 when it finds fewer than `k` neighbours, and -1 reads the last entry. */
  function JoinAsWritten(meta: map<string, seq<string>>, ds: seq<real>, ls: seq<int>): (r: Result<seq<Hit>, QueryError>)
    ensures r.Success? ==> |r.value| == (if |ds| < |ls| then |ds| else |ls|)
    ensures r.Success? ==> forall k :: 0 <= k < |r.value| ==> r.value[k].distance == ds[k]
    decreases |ds|
  {
    if ds == [] || ls == [] then Success([])
    else
      var ids :- Lookup(meta, "ids");
      var id :- PyIndex(ids, ls[0]);
      var texts :- Lookup(meta, "texts");
      var text :- PyIndex(texts, ls[0]);
      var rest :- JoinAsWritten(meta, ds[1..], ls[1..]);
      Success([Hit(id, ds[0], text)] + rest)
  }

  /** The join as intended: a position of -1 (or any negative one) marks a slot FAISS did
      not fill and yields no line; every other position must lie inside both lists. */
  function Join(meta: map<string, seq<string>>, ds: seq<real>, ls: seq<int>): (r: Result<seq<Hit>, QueryError>)
    ensures r.Success? ==> |r.value| <= (if |ds| < |ls| then |ds| else |ls|)
    ensures (forall k :: 0 <= k < |ls| ==> ls[k] < 0) ==> r == Success([])
    decreases |ds|
  {
    if ds == [] || ls == [] then Success([])
    else if ls[0] < 0 then Join(meta, ds[1..], ls[1..])
    else
      var ids :- Lookup(meta, "ids");
      var id :- if ls[0] < |ids| then Success(ids[ls[0]]) else Failure(OutOfRange(ls[0]));
      var texts :- Lookup(meta, "texts");
      var text :- if ls[0] < |texts| then Success(texts[ls[0]]) else Failure(OutOfRange(ls[0]));
      var rest :- Join(meta, ds[1..], ls[1..]);
      Success([Hit(id, ds[0], text)] + rest)
  }

  /** The number of non-negative positions among the first `n` labels. */
  function CountFound(ls: seq<int>, n: nat): nat
    requires n <= |ls|
  {
    if n == 0 then 0 else CountFound(ls, n - 1) + (if ls[n - 1] >= 0 then 1 else 0)
  }

  /** Every position of `ls` before `n` is -1 or lies inside the metadata's lists. */
  predicate InRange(meta: map<string, seq<string>>, ls: seq<int>, n: nat)
    requires "ids" in meta && "texts" in meta && n <= |ls|
  {
    forall k :: 0 <= k < n ==> -1 <= ls[k] < |meta["ids"]| && ls[k] < |meta["texts"]|
  }

  /** The answer `IndexFlatL2.search` gives for one query against `count` stored vectors
      with `k` neighbours: `k` distances and `k` labels, each label a stored position or
      the padding -1, and exactly `min(k, count)` slots filled. */
  predicate FaissAnswer(ds: seq<real>, ls: seq<int>, k: nat, count: nat) {
    && |ds| == k && |ls| == k
    && (forall j :: 0 <= j < k ==> -1 <= ls[j] < count)
    && CountFound(ls, k) == (if k < count then k else count)
  }

  /** The metadata written beside an index of `count` vectors: both keys present and one
      id and one text per stored vector. */
  predicate MetadataFor(meta: map<string, seq<string>>, count: nat) {
    "ids" in meta && "texts" in meta && |meta["ids"]| == count && |meta["texts"]| == count
  }

  /** `query_index` without the model and the printing, as lines 44-48 are written:
      search the index for the embedded query with `top_k` neighbours and join every slot
      of `zip(D[0], I[0])` to the metadata. It changes neither the index nor the metadata.
      On a well-formed FAISS answer and matching metadata it yields exactly `top_k`
      lines, padding slots included. */
  method QueryIndex(index: FlatIndex, meta: map<string, seq<string>>, queryEmbedding: Vector,
                    engine: SearchEngine, topK: nat := DefaultTopK)
    returns (r: Result<seq<Hit>, QueryError>)
    requires |queryEmbedding| == index.dim && topK > 0
    ensures var (ds, ls) := engine(index.vectors, queryEmbedding, topK);
            r == JoinAsWritten(meta, ds, ls)
    ensures var (ds, ls) := engine(index.vectors, queryEmbedding, topK);
            (FaissAnswer(ds, ls, topK, |index.vectors|) && MetadataFor(meta, |index.vectors|)
             && index.vectors != []) ==> r.Success? && |r.value| == topK
  {
    var distances, labels := index.Search(queryEmbedding, topK, engine);
    r := JoinAsWritten(meta, distances, labels);
    if FaissAnswer(distances, labels, topK, |index.vectors|) && MetadataFor(meta, |index.vectors|)
       && index.vectors != [] {
      AsWrittenLength(meta, distances, labels);
    }
  }

  /** The query as intended: the same search, joined so that padding slots yield no
      line. On a well-formed FAISS answer and matching metadata it succeeds with
      `min(top_k, ntotal)` lines, and the filled slot `k` of the answer is line number
      "filled slots before `k`", showing that position's id, distance and text. */
  method QueryIndexIntended(index: FlatIndex, meta: map<string, seq<string>>, queryEmbedding: Vector,
                            engine: SearchEngine, topK: nat := DefaultTopK)
    returns (r: Result<seq<Hit>, QueryError>)
    requires |queryEmbedding| == index.dim && topK > 0
    ensures var (ds, ls) := engine(index.vectors, queryEmbedding, topK);
            r == Join(meta, ds, ls)
    ensures var (ds, ls) := engine(index.vectors, queryEmbedding, topK);
            FaissAnswer(ds, ls, topK, |index.vectors|) && MetadataFor(meta, |index.vectors|) ==>
              && r.Success?
              && |r.value| == (if topK < |index.vectors| then topK else |index.vectors|) <= topK
              && forall k :: 0 <= k < topK && 0 <= ls[k] ==>
                   CountFound(ls, k) < |r.value|
                   && r.value[CountFound(ls, k)] == Hit(meta["ids"][ls[k]], ds[k], meta["texts"][ls[k]])
  {
    var distances, labels := index.Search(queryEmbedding, topK, engine);
    r := Join(meta, distances, labels);
    if FaissAnswer(distances, labels, topK, |index.vectors|) && MetadataFor(meta, |index.vectors|) {
      JoinSkipsPadding(meta, distances, labels);
    }
  }

  // ---------------------------------------------------------------------------
  // Lemmas about the join

  /** When every position lies inside the lists, the join succeeds and pairs, slot by
      slot, `ids[idx]` with `texts[idx]` for the same position, in the search's order:
      one line per slot of `zip`, so never more than `top_k`. */
  lemma {:induction false} JoinExact(meta: map<string, seq<string>>, ds: seq<real>, ls: seq<int>)
    requires "ids" in meta && "texts" in meta
    requires forall k :: 0 <= k < |ls| ==> 0 <= ls[k] < |meta["ids"]| && ls[k] < |meta["texts"]|
    ensures Join(meta, ds, ls).Success?
    ensures var hits := Join(meta, ds, ls).value;
            && |hits| == (if |ds| < |ls| then |ds| else |ls|)
            && forall k :: 0 <= k < |hits| ==>
                 hits[k] == Hit(meta["ids"][ls[k]], ds[k], meta["texts"][ls[k]])
    decreases |ds|
  {
    if ds != [] && ls != [] {
      JoinExact(meta, ds[1..], ls[1..]);
    }
  }

  /** With FAISS's -1 padding allowed, the join still succeeds, emits one line per filled
      slot (so at most `top_k`), and every line pairs `ids[idx]` and `texts[idx]` of a
      position `idx` the search returned, with that slot's distance. */
  lemma {:induction false} JoinSkipsPadding(meta: map<string, seq<string>>, ds: seq<real>, ls: seq<int>)
    requires "ids" in meta && "texts" in meta && |ds| == |ls|
    requires InRange(meta, ls, |ls|)
    ensures Join(meta, ds, ls).Success?
    ensures |Join(meta, ds, ls).value| == CountFound(ls, |ls|) <= |ls|
    ensures forall h :: h in Join(meta, ds, ls).value ==>
              exists k :: 0 <= k < |ls| && 0 <= ls[k] && h == Hit(meta["ids"][ls[k]], ds[k], meta["texts"][ls[k]])
    ensures forall k :: 0 <= k < |ls| && 0 <= ls[k] ==>
              CountFound(ls, k) < |Join(meta, ds, ls).value|
              && Join(meta, ds, ls).value[CountFound(ls, k)] == Hit(meta["ids"][ls[k]], ds[k], meta["texts"][ls[k]])
    decreases |ds|
  {
    if ds != [] {
      assert InRange(meta, ls[1..], |ls[1..]|) by {
        forall k | 0 <= k < |ls[1..]| ensures -1 <= ls[1..][k] < |meta["ids"]| && ls[1..][k] < |meta["texts"]| {
          assert ls[1..][k] == ls[k + 1];
        }
      }
      JoinSkipsPadding(meta, ds[1..], ls[1..]);
      CountFoundFront(ls);
      var rest := Join(meta, ds[1..], ls[1..]).value;
      forall h | h in Join(meta, ds, ls).value
        ensures exists k :: 0 <= k < |ls| && 0 <= ls[k] && h == Hit(meta["ids"][ls[k]], ds[k], meta["texts"][ls[k]])
      {
        if h in rest {
          var k :| 0 <= k < |ls[1..]| && 0 <= ls[1..][k]
                   && h == Hit(meta["ids"][ls[1..][k]], ds[1..][k], meta["texts"][ls[1..][k]]);
          assert ls[k + 1] == ls[1..][k] && ds[k + 1] == ds[1..][k];
        }
      }
      forall k | 0 <= k < |ls| && 0 <= ls[k]
        ensures CountFound(ls, k) < |Join(meta, ds, ls).value|
        ensures Join(meta, ds, ls).value[CountFound(ls, k)] == Hit(meta["ids"][ls[k]], ds[k], meta["texts"][ls[k]])
      {
        if k > 0 {
          CountFoundShift(ls, k);
          assert ls[1..][k - 1] == ls[k] && ds[1..][k - 1] == ds[k];
        }
      }
    }
  }

  /** Counting filled slots from the front agrees with counting from the back. */
  lemma {:induction false} CountFoundFront(ls: seq<int>)
    requires ls != []
    ensures CountFound(ls, |ls|) == (if ls[0] >= 0 then 1 else 0) + CountFound(ls[1..], |ls| - 1)
  {
    CountFoundShift(ls, |ls|);
  }

  lemma {:induction false} CountFoundShift(ls: seq<int>, n: nat)
    requires 1 <= n <= |ls|
    ensures CountFound(ls, n) == (if ls[0] >= 0 then 1 else 0) + CountFound(ls[1..], n - 1)
  {
    if n > 1 {
      CountFoundShift(ls, n - 1);
      assert ls[1..][n - 2] == ls[n - 1];
    }
  }

  /** The discrepancy of the join as written: a slot FAISS left unfilled (position -1)
      still prints a line, and that line shows the last item's id and text. */
  lemma {:induction false} PaddingShowsLastItem(meta: map<string, seq<string>>, ds: seq<real>, ls: seq<int>, k: nat)
    requires "ids" in meta && "texts" in meta && meta["ids"] != [] && meta["texts"] != []
    requires |ds| == |ls| && InRange(meta, ls, |ls|)
    requires k < |ls| && ls[k] == -1
    ensures JoinAsWritten(meta, ds, ls).Success?
    ensures |JoinAsWritten(meta, ds, ls).value| == |ls|
    ensures JoinAsWritten(meta, ds, ls).value[k]
            == Hit(meta["ids"][|meta["ids"]| - 1], ds[k], meta["texts"][|meta["texts"]| - 1])
    decreases |ds|
  {
    AsWrittenLength(meta, ds, ls);
    if k > 0 {
      assert InRange(meta, ls[1..], |ls[1..]|) by {
        forall j | 0 <= j < |ls[1..]| ensures -1 <= ls[1..][j] < |meta["ids"]| && ls[1..][j] < |meta["texts"]| {
          assert ls[1..][j] == ls[j + 1];
        }
      }
      PaddingShowsLastItem(meta, ds[1..], ls[1..], k - 1);
    }
  }

  /** The join as written, on positions in `-1..len`, prints one line per slot. */
  lemma {:induction false} AsWrittenLength(meta: map<string, seq<string>>, ds: seq<real>, ls: seq<int>)
    requires "ids" in meta && "texts" in meta && meta["ids"] != [] && meta["texts"] != []
    requires |ds| == |ls| && InRange(meta, ls, |ls|)
    ensures JoinAsWritten(meta, ds, ls).Success?
    ensures |JoinAsWritten(meta, ds, ls).value| == |ls|
    ensures forall k :: 0 <= k < |ls| && 0 <= ls[k] ==>
              JoinAsWritten(meta, ds, ls).value[k] == Hit(meta["ids"][ls[k]], ds[k], meta["texts"][ls[k]])
    decreases |ds|
  {
    if ds != [] {
      assert InRange(meta, ls[1..], |ls[1..]|) by {
        forall j | 0 <= j < |ls[1..]| ensures -1 <= ls[1..][j] < |meta["ids"]| && ls[1..][j] < |meta["texts"]| {
          assert ls[1..][j] == ls[j + 1];
        }
      }
      AsWrittenLength(meta, ds[1..], ls[1..]);
    }
  }

  /** A concrete case: three stored items searched with the default `top_k` of 5. The
      code as written prints five lines, the last two repeating item "c"; the intended
      join prints three. */
  lemma DefaultTopKOverThreeItems(far: real)
    ensures var meta := Metadata(["a", "b", "c"], ["A", "B", "C"]);
            var ds := [0.0, 1.0, 2.0, far, far];
            var ls := [0, 1, 2, -1, -1];
            && |ls| == DefaultTopK
            && JoinAsWritten(meta, ds, ls)
               == Success([Hit("a", 0.0, "A"), Hit("b", 1.0, "B"), Hit("c", 2.0, "C"),
                           Hit("c", far, "C"), Hit("c", far, "C")])
            && Join(meta, ds, ls) == Success([Hit("a", 0.0, "A"), Hit("b", 1.0, "B"), Hit("c", 2.0, "C")])
  {
    var meta := Metadata(["a", "b", "c"], ["A", "B", "C"]);
    var c := Hit("c", far, "C");
    assert [far][1..] == [] && [-1][1..] == [];
    assert [c] + [] == [c];
    assert [c] + [c] == [c, c];
    assert [Hit("c", 2.0, "C")] + [c, c] == [Hit("c", 2.0, "C"), c, c];
    assert [Hit("b", 1.0, "B")] + [Hit("c", 2.0, "C"), c, c] == [Hit("b", 1.0, "B"), Hit("c", 2.0, "C"), c, c];
    assert [Hit("a", 0.0, "A")] + [Hit("b", 1.0, "B"), Hit("c", 2.0, "C"), c, c]
        == [Hit("a", 0.0, "A"), Hit("b", 1.0, "B"), Hit("c", 2.0, "C"), c, c];
    assert [Hit("c", 2.0, "C")] + [] == [Hit("c", 2.0, "C")];
    assert [Hit("b", 1.0, "B")] + [Hit("c", 2.0, "C")] == [Hit("b", 1.0, "B"), Hit("c", 2.0, "C")];
    assert [Hit("a", 0.0, "A")] + [Hit("b", 1.0, "B"), Hit("c", 2.0, "C")]
        == [Hit("a", 0.0, "A"), Hit("b", 1.0, "B"), Hit("c", 2.0, "C")];
    assert JoinAsWritten(meta, [far], [-1]) == Success([c]);
    assert [far, far][1..] == [far] && [-1, -1][1..] == [-1];
    assert JoinAsWritten(meta, [far, far], [-1, -1]) == Success([c, c]);
    assert [2.0, far, far][1..] == [far, far] && [2, -1, -1][1..] == [-1, -1];
    assert JoinAsWritten(meta, [2.0, far, far], [2, -1, -1]) == Success([Hit("c", 2.0, "C"), c, c]);
    assert [1.0, 2.0, far, far][1..] == [2.0, far, far] && [1, 2, -1, -1][1..] == [2, -1, -1];
    assert JoinAsWritten(meta, [1.0, 2.0, far, far], [1, 2, -1, -1])
        == Success([Hit("b", 1.0, "B"), Hit("c", 2.0, "C"), c, c]);
    assert [0.0, 1.0, 2.0, far, far][1..] == [1.0, 2.0, far, far];
    assert [0, 1, 2, -1, -1][1..] == [1, 2, -1, -1];
    assert Join(meta, [far], [-1]) == Success([]);
    assert Join(meta, [far, far], [-1, -1]) == Success([]);
    assert Join(meta, [2.0, far, far], [2, -1, -1]) == Success([Hit("c", 2.0, "C")]);
    assert Join(meta, [1.0, 2.0, far, far], [1, 2, -1, -1]) == Success([Hit("b", 1.0, "B"), Hit("c", 2.0, "C")]);
  }

  // ---------------------------------------------------------------------------
  // Build and query together

  /** The central alignment: after a successful build, every line of a query whose
      positions are -1 or stored positions shows the id and text of the very item whose
      embedding sits at that position of the index. */
  lemma BuildThenJoin(items: seq<Item>, ds: seq<real>, ls: seq<int>)
    requires PlanBuild(items).Success?
    requires |ds| == |ls| && forall k :: 0 <= k < |ls| ==> -1 <= ls[k] < |items|
    ensures var p := PlanBuild(items).value;
            && Join(Metadata(p.ids, p.texts), ds, ls).Success?
            && (forall h :: h in Join(Metadata(p.ids, p.texts), ds, ls).value ==>
                 exists k :: 0 <= k < |ls| && 0 <= ls[k] < |items|
                   && h.id == items[ls[k]].id.value && h.text == items[ls[k]].text.value
                   && h.distance == ds[k] && p.rows[ls[k]] == items[ls[k]].embedding.value)
            && (forall k :: 0 <= k < |ls| && 0 <= ls[k] ==>
                 CountFound(ls, k) < |Join(Metadata(p.ids, p.texts), ds, ls).value|
                 && Join(Metadata(p.ids, p.texts), ds, ls).value[CountFound(ls, k)]
                    == Hit(items[ls[k]].id.value, ds[k], items[ls[k]].text.value))
  {
    var p := PlanBuild(items).value;
    var meta := Metadata(p.ids, p.texts);
    PlanAligned(items);
    JoinSkipsPadding(meta, ds, ls);
  }
}
