# Figma2VectorDB in Dafny

A model of the two pieces of the Figma-to-vector-database pipeline that hold logic of
their own:

- **The text-node extractor** (`scripts/extract_nodes.py`). `traverse` walks the design
  document's JSON tree. A node whose `type` is exactly `SHAPE_WITH_TEXT` and whose
  `characters`, stripped of whitespace, are not blank yields a record
  `{id, name, text}`. Records are collected in pre-order over the whole tree, and the
  walk starts at `root["document"]` (or `{}`). Module `ExtractNodes` models the walk as
  a recursive method with the source's loop over the children. The method is proved
  equal to a reference definition: the records of the qualifying nodes of the tree's
  pre-order listing (`Collect(Flatten(n))`). Module `Whitespace` models Python's
  `str.strip()` as CPython's two index scans.
- **The index builder and searcher** (`scripts/build_faiss_index.py`). `main` stacks the
  embeddings into a matrix and collects the parallel `ids` and `texts` lists. It then
  adds the matrix to a flat L2 index and writes the metadata map `{ids, texts}`.
  `query_index` searches the index and joins each returned position back to
  `ids[idx]` and `texts[idx]`. Module `FaissIndex` models the index as a class whose
  vector sequence only grows. The nearest-neighbour search is a function parameter
  (`SearchEngine`) that returns distances and positions. The central property is
  positional alignment: position `p` of the index, of `ids` and of `texts` all come
  from input item `p` (`PlanAligned`, `BuildThenJoin`).

Module `Wrappers` holds the `Option` and `Result` types. Python exceptions
(`KeyError`, NumPy's `ValueError`, `IndexError`) become `Failure` values.

Facts about the code that the model keeps:

- An empty item list fails with `IndexError` at `embs.shape[1]`. Ragged embeddings fail
  with NumPy's `ValueError`. Neither has a dedicated validation error.
- `query_index` prints one line for every slot of `zip(D[0], I[0])`, which is `top_k`
  slots. FAISS fills `min(top_k, ntotal)` of them and pads the rest with -1, and the
  code prints the padding slots too (see Findings).
- No check compares the index's vector count with the metadata's list lengths. A
  position outside the metadata lists is an `IndexError`, and a missing key is a
  `KeyError`.
- Rows of width 0 are not rejected: they give an index of dimension 0.

## Model

| member | source | states |
|---|---|---|
| `Whitespace.Strip` | Figma2VectorDB/scripts/extract_nodes.py:53 | `str.strip()`: the result is a slice of the input with only whitespace cut from each end; it has no whitespace border; it is empty exactly when the input is all whitespace |
| `Whitespace.SkipLeading` | Figma2VectorDB/scripts/extract_nodes.py:53 | the left scan of `strip` stops at the first non-whitespace character, having passed only whitespace |
| `Whitespace.SkipTrailing` | Figma2VectorDB/scripts/extract_nodes.py:53 | the right scan of `strip` stops after the last non-whitespace character, never going left of the left scan's end |
| `Whitespace.StripIdempotent` | Figma2VectorDB/scripts/extract_nodes.py:53-58 | stripping an emitted text again leaves it unchanged |
| `ExtractNodes.Traverse` | Figma2VectorDB/scripts/extract_nodes.py:50-62 | the walk yields exactly the records of the qualifying nodes of the tree's pre-order listing, or `KeyError('id')` when one of them has no `id` |
| `ExtractNodes.ExtractTextNodes` | Figma2VectorDB/scripts/extract_nodes.py:64 | the walk starts at `root["document"]`, and a root without `document` yields no records |
| `ExtractNodes.LoopStep` | Figma2VectorDB/scripts/extract_nodes.py:60-61 | one turn of the loop over the children: the child's records extend `out`, or the child's exception is the whole walk's result |
| `ExtractNodes.CollectSingle` | Figma2VectorDB/scripts/extract_nodes.py:52-59 | a node by itself yields nothing unless its type is `SHAPE_WITH_TEXT` and its stripped text is non-blank; then it yields its record, or `KeyError('id')` when it has no `id` |
| `ExtractNodes.CollectAppend` | Figma2VectorDB/scripts/extract_nodes.py:61 | `out += traverse(child)`: collecting over two listings in sequence is concatenating their records, and the first failure wins |
| `ExtractNodes.ExpectedUnfolds` | Figma2VectorDB/scripts/extract_nodes.py:51-62 | a node's result is its own contribution followed by its children's results, left to right |
| `ExtractNodes.NonQualifyingEmitsNothing` | Figma2VectorDB/scripts/extract_nodes.py:52-54 | a node with another type, no `characters` or blank text emits nothing itself, but its subtree is still searched |
| `ExtractNodes.OwnRecordFirst` | Figma2VectorDB/scripts/extract_nodes.py:55-61 | a qualifying node's own record comes first, before every record of its subtree |
| `ExtractNodes.MissingIdFails` | Figma2VectorDB/scripts/extract_nodes.py:56 | a qualifying node without `id`, at any depth, makes the whole extraction raise `KeyError('id')` instead of emitting a partial record |
| `ExtractNodes.CollectFailsIff` | Figma2VectorDB/scripts/extract_nodes.py:55-56 | collecting fails, with `KeyError('id')`, exactly when some qualifying node lacks an `id` |
| `ExtractNodes.CollectLength` | Figma2VectorDB/scripts/extract_nodes.py:54-55 | one record per qualifying node |
| `ExtractNodes.CollectSound` | Figma2VectorDB/scripts/extract_nodes.py:55-59 | every record is built from a qualifying node: its `id`, its `name` or `""`, and its stripped text |
| `ExtractNodes.CollectComplete` | Figma2VectorDB/scripts/extract_nodes.py:52-59 | every qualifying node has its record in a successful output |
| `ExtractNodes.RecordTextsStripped` | Figma2VectorDB/scripts/extract_nodes.py:53-58 | every emitted text is non-blank, has no whitespace border and is unchanged by stripping |
| `ExtractNodes.ExpectedCount` | Figma2VectorDB/scripts/extract_nodes.py:60-62 | the output length is the number of qualifying nodes in the tree, so at most the tree's node count |
| `ExtractNodes.ExpectedSound` | Figma2VectorDB/scripts/extract_nodes.py:55-62 | every output record comes from a qualifying node somewhere in the tree |
| `ExtractNodes.ExpectedComplete` | Figma2VectorDB/scripts/extract_nodes.py:52-62 | every qualifying node of the tree, at any depth and whatever its ancestors are, has its record in a successful output |
| `ExtractNodes.FlattenSize` | Figma2VectorDB/scripts/extract_nodes.py:60-61 | the pre-order listing starts with the root and holds as many nodes as the tree has |
| `FaissIndex.Column` | Figma2VectorDB/scripts/build_faiss_index.py:16-18 | the list comprehension `[item[key] for item in items]` keeps every item's value, in input order, and fails with `KeyError(key)` exactly when some item lacks the key |
| `FaissIndex.Metadata` | Figma2VectorDB/scripts/build_faiss_index.py:28 | the persisted metadata map has exactly the keys `ids` and `texts`, holding the two lists |
| `FaissIndex.FlatIndex.constructor` | Figma2VectorDB/scripts/build_faiss_index.py:22 | a new index has the given dimension and no vectors |
| `FaissIndex.FlatIndex.Add` | Figma2VectorDB/scripts/build_faiss_index.py:23 | adding appends the rows after the stored ones: the count grows by the number of rows and no stored vector moves |
| `FaissIndex.FlatIndex.Search` | Figma2VectorDB/scripts/build_faiss_index.py:44 | the search reads the stored vectors and changes nothing |
| `FaissIndex.Build` | Figma2VectorDB/scripts/build_faiss_index.py:16-28 | the built index holds the stacked rows in input order with the common width as dimension, beside the metadata map of `ids` and `texts`; otherwise the first error in the source's order |
| `FaissIndex.PlanAligned` | Figma2VectorDB/scripts/build_faiss_index.py:16-23 | after a successful build the index rows, `ids` and `texts` have the length of the input, and position `p` of each comes from item `p` |
| `FaissIndex.PlanSucceedsIff` | Figma2VectorDB/scripts/build_faiss_index.py:16-21 | the build succeeds exactly when the list is non-empty, every item has `embedding`, `id` and `text`, and the embeddings have one length |
| `FaissIndex.EmptyBatchFails` | Figma2VectorDB/scripts/build_faiss_index.py:21 | an empty item list fails when `embs.shape[1]` is read |
| `FaissIndex.RaggedBatchFails` | Figma2VectorDB/scripts/build_faiss_index.py:16 | embeddings of unequal length cannot be stacked |
| `FaissIndex.PlanBuild` | Figma2VectorDB/scripts/build_faiss_index.py:16-21 | a successful build has as many rows, ids and texts as input items, at least one, all rows of the plan's width; it fails with `IndexError` at `shape[1]` exactly when the list is empty; a `KeyError` names `embedding`, `id` or `text` |
| `Whitespace.IsSpace` | Figma2VectorDB/scripts/extract_nodes.py:53 | the whitespace set of `strip`: every character of `string.whitespace` is in it, and no letter, digit or underscore is |
| `FaissIndex.Lookup` | Figma2VectorDB/scripts/build_faiss_index.py:48 | `meta[key]` succeeds exactly when the key is present and then gives its list; otherwise `KeyError(key)` |
| `FaissIndex.PyIndex` | Figma2VectorDB/scripts/build_faiss_index.py:48 | Python list indexing: succeeds exactly for `-len <= i < len`, a negative `i` counting from the end |
| `FaissIndex.JoinAsWritten` | Figma2VectorDB/scripts/build_faiss_index.py:47-48 | the loop as written: when it completes it prints one line per slot of `zip(D[0], I[0])`, each with that slot's distance |
| `FaissIndex.Join` | Figma2VectorDB/scripts/build_faiss_index.py:47-48 | the intended loop: never more lines than slots, and no line at all when every slot is padding |
| `FaissIndex.QueryIndex` | Figma2VectorDB/scripts/build_faiss_index.py:32-48 | a query with `top_k` (default 5) is the as-written join of the search's answer on the stored vectors; on a well-formed FAISS answer over a non-empty index with matching metadata it prints exactly `top_k` lines, padding included; it has no `modifies` clause, so it changes neither the index nor the metadata |
| `FaissIndex.QueryIndexIntended` | Figma2VectorDB/scripts/build_faiss_index.py:32-48 | the same query with the padding skipped: on a well-formed FAISS answer with matching metadata it succeeds with `min(top_k, ntotal)` lines, at most `top_k`, and each filled slot appears, in slot order, with its position's id, distance and text |
| `FaissIndex.JoinExact` | Figma2VectorDB/scripts/build_faiss_index.py:47-48 | with every position in range, each result pairs `ids[idx]` with `texts[idx]` and the distance of the same slot, in the search's order, one per slot of `zip` |
| `FaissIndex.JoinSkipsPadding` | Figma2VectorDB/scripts/build_faiss_index.py:44-48 | with -1 padding allowed, the join emits one line per filled slot, at most `top_k`; every line pairs `ids[idx]` and `texts[idx]` of a returned position, and the filled slot `k` is line number "filled slots before `k`", so the search's order is kept |
| `FaissIndex.AsWrittenLength` | Figma2VectorDB/scripts/build_faiss_index.py:47-48 | the join as written prints one line for every slot, padding included, and a filled slot shows its own position's id and text |
| `FaissIndex.PaddingShowsLastItem` | Figma2VectorDB/scripts/build_faiss_index.py:47-48 | the join as written shows the last item's id and text for a slot that FAISS left at -1 |
| `FaissIndex.DefaultTopKOverThreeItems` | Figma2VectorDB/scripts/build_faiss_index.py:32-48 | three stored items queried with the default `top_k` of 5: as written, five lines, the last two repeating item "c"; as intended, three |
| `FaissIndex.BuildThenJoin` | Figma2VectorDB/scripts/build_faiss_index.py:16-48 | after a successful build, every line of a query shows the id and text of the very item whose embedding sits at the returned position, and each filled slot's line appears in slot order |

## Findings

| source | as written | input that shows it | evidently intended | confidence | as-written member | corrected member |
|---|---|---|---|---|---|---|
| Figma2VectorDB/scripts/build_faiss_index.py:47-48 | every position in `I[0]` is used as a list index, including FAISS's -1 for a slot it could not fill, and `meta['ids'][-1]` is the last item | three stored items, `query_index(q)` with the default `top_k` of 5, so `I[0]` is `[0, 1, 2, -1, -1]`: five lines are printed, the last two showing item "c" | print one line per filled slot and skip the -1 slots | high for FAISS's documented -1 padding; not executed | `FaissIndex.PaddingShowsLastItem` | `FaissIndex.JoinSkipsPadding` |

`FaissIndex.JoinAsWritten` models the join as written, and `FaissIndex.QueryIndex`
uses it. `FaissIndex.Join` is the corrected join, used by
`FaissIndex.QueryIndexIntended` and `FaissIndex.BuildThenJoin`.

## Left out

- File and JSON input and output, the path check, console messages and exit codes. The
  extractor starts from the parsed root, the builder from the parsed item list, and the
  query from the loaded index and metadata.
- JSON values of unexpected types. A non-string `characters` (which would raise
  `AttributeError` at `.strip()`), a non-list `children`, or a non-numeric embedding
  cannot be represented in the typed model.
- An absent `children` key and an empty `children` list are one value in the model.
  `node.get("children", [])` treats them alike.
- Python's recursion limit on very deep trees is not modelled.
- FAISS internals: squared-L2 distances, the narrowing to 32-bit floats, ordering and
  tie-breaking, and exact-search correctness. Embedding components are `real` values
  that the model never inspects. The search is the parameter `SearchEngine`.
- FaissIndex.FlatIndex.Search: requires the query width to equal the index dimension,
  which FAISS asserts, rather than modelling that assertion's failure.
- `faiss.write_index`, `faiss.read_index` and pickle. The persisted index and metadata
  are the in-memory values themselves.
- The sentence-transformer model (`scripts/embed_data.py`, and the query encoding at
  `scripts/build_faiss_index.py:34-35` and `:43`). The query embedding is a parameter.
- FaissIndex.QueryIndex: returns `Failure` when a lookup fails, and so drops the result
  lines the source prints before the exception. The same holds for
  `FaissIndex.QueryIndexIntended`.
- FaissIndex.QueryIndex: requires `top_k > 0`, which FAISS asserts, rather than
  modelling that assertion's failure. The same holds for `FaissIndex.FlatIndex.Search`.
- The commented-out first version of the extractor at `scripts/extract_nodes.py:1-34`.
