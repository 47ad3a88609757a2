# In-memory vector store: engine and line protocol, modelled in Dafny

The system is a small vector database written in Go. A TCP server reads lines
such as `ADD doc1 0.1 0.2 0.3` or `SEARCH 0.1 0.2 0.3`. Each line becomes one
call on a shared vector engine. The engine is a map from identifier to vector.
It supports an overwriting insert (`Add`) and a linear-scan cosine-similarity
search. The search skips vectors that cannot be compared with the query,
sorts the rest by score descending, and keeps the best `limit`. At startup the
engine can restore its map from a JSON file (`Load`).

The repository has two copies of each part. `pkg/vector/engine.go` is the
engine package and `cmd/server/main.go` is the server that uses it. The root
files `engine.go` and `main.go` are an earlier, near line-for-line copy of the
two. The root copy has no `Save`/`Load`, and it seeds the store with one
`test_doc` entry instead of loading a file. One Dafny model covers both copies.
The table below cites the package copy for some members and the root copy for
others.

Modules:

- `wrappers.dfy`: `Option`, `Result` and `Outcome`, used for Go's `(value, error)`
  returns.
- `similarity.dfy` (`Similarity`): vectors as `seq<real>`, the dot product and
  sum of squares, `CosineSimilarity` and its accumulation loop.
- `ranking.dfy` (`Ranking`): `SearchResult`, the descending sort and the
  truncation to `limit`.
- `engine.dfy` (`Engine`): the engine state, `NewVectorEngine`, `Add`, `Search`
  and `Load`.
- `server.dfy` (`Server`): the token-list parser, command execution, and the two
  startup sequences.

Each engine operation is one atomic step from an immutable `VectorEngine` value
to a result. `Search` returns no new engine, so it cannot change the store.
Five things enter the model as inputs, so no proof depends on how they are
computed:

- `score: (Vector, Vector) -> real` is the floating-point value
  `dot / (sqrt(normA) * sqrt(normB))`.
- `parseNum: string -> Option<real>` is `strconv.ParseFloat`.
- `order: seq<string>` is the order in which Go's `range` visits the map. Any
  order that lists every key exactly once is allowed.
- `file: FileOutcome` is what opening and decoding the data file produced
  (`Engine.Load`, `Server.ServerStartup`): the file is absent, cannot be opened,
  decodes to a JSON object, decodes to JSON `null`, or fails to decode after
  writing some entries.
- `saved: bool` is whether the file write of `Save` succeeded
  (`Server.Execute`, `Server.HandleLine`).

A search line always uses the limit 3 (`DefaultLimit`).

Where the documented design and the code disagree, the model follows the code:

- `Load` decodes into the existing map. A file holding a JSON object merges its
  entries into the store rather than replacing the store (`Engine.Load`,
  `MergedInto`). A file holding JSON `null` instead sets the map to Go's nil
  map, which drops every entry, and `Load` reports no error. Storing into a nil
  map panics, so after such a startup the first valid `ADD` crashes the server
  (`Server.NullFileCrashesFirstAdd`). The engine state records this as
  `nilMap`, and `Engine.Add` requires an allocated map.
- A missing data file leaves the store as it was. The store is empty only
  because it was freshly constructed.
- The sort is Go's unstable `sort.Slice`. The order of equal scores is not
  specified, and no contract claims one.
- The root `main.go` has a `SAVE` branch that calls `engine.Save`, but the root
  `engine.go` defines no `Save`. The model's `SAVE` dispatch follows
  `cmd/server/main.go`.

## Model

| member | source | states |
|---|---|---|
| Similarity.CosineSimilarity | pkg/vector/engine.go:15-41 | fails with a length mismatch exactly when the lengths differ; for equal lengths, fails with a zero-vector error exactly when one side is all zeros; otherwise succeeds with the score of the two vectors |
| Similarity.Accumulate | pkg/vector/engine.go:21-32 | the single loop yields the dot product and both sums of squares; each sum is non-negative and zero exactly for an all-zero vector |
| Similarity.SumSqZeroIff | pkg/vector/engine.go:34-37 | over the reals, the zero-norm test `normA == 0` holds exactly when the vector is all zeros, and a sum of squares is never negative |
| Similarity.CosineSimilarityOutcomeSymmetric | engine.go:13-40 | whether a comparison fails, and with which error, does not depend on the order of its arguments |
| Similarity.CosineSimilaritySelf | engine.go:13-40 | a vector that is not all zeros can always be compared with itself |
| Engine.NewVectorEngine | pkg/vector/engine.go:57-61 | a new engine holds no identifier, in an allocated (non-nil) map |
| Engine.Add | pkg/vector/engine.go:63-68 | on an allocated map (a nil map panics): afterwards `id` maps to `v`, the keys are the old keys plus `id`, and every other entry is unchanged |
| Engine.AddOverwrites | engine.go:62-67 | adding twice under one identifier leaves only the second vector |
| Engine.AddCommutes | engine.go:62-67 | additions under distinct identifiers commute |
| Engine.Scan | pkg/vector/engine.go:77-88 | the scan yields only entries whose similarity succeeded, each with its score; its identifiers are exactly the visited identifiers whose similarity succeeds; they are distinct when the visit order has no repeats |
| Engine.Search | pkg/vector/engine.go:71-100 | never fails; each result is a stored identifier with its successful score; identifiers are distinct; scores are non-increasing; length is min(limit, number of valid candidates); every valid candidate left out scores no higher than every result kept; if the limit covers all valid candidates, they are all returned |
| Engine.TopK | pkg/vector/engine.go:90-99 | after sorting and truncating, every dropped valid candidate scores at most every kept result |
| Engine.SearchEmptyStore | engine.go:70-98 | searching an empty store returns an empty result, not an error |
| Engine.SearchSkipsFailures | engine.go:80-84 | an entry whose similarity fails never appears in the result |
| Engine.SearchReturnsAll | engine.go:80-98 | when every stored vector is comparable with the query and the limit covers the store, every identifier is returned once |
| Engine.SearchFindsAdded | engine.go:62-98 | after adding a non-zero vector of the query's length, a search whose limit exceeds the old store size returns that identifier with its score |
| Ranking.Insert | pkg/vector/engine.go:90-93 | inserting into a descending sequence keeps it descending and adds exactly the one element (multiset) |
| Ranking.SortDesc | pkg/vector/engine.go:90-93 | the output is sorted by descending score and is a permutation of the input |
| Ranking.SortDescIds | pkg/vector/engine.go:90-93 | sorting keeps the set of identifiers and keeps them distinct |
| Ranking.Truncate | pkg/vector/engine.go:95-99 | the output is the input's prefix of length `limit` when the input is longer, otherwise the whole input |
| Ranking.DistinctIdsCardinality | pkg/vector/engine.go:81-88 | results with distinct identifiers have as many identifiers as results, which links the result length to the number of valid candidates |
| Engine.Load | pkg/vector/engine.go:129-153 | a missing file succeeds and changes nothing; another open error is reported and changes nothing; a decoded object writes its entries over the existing map (merge) and succeeds, leaving an allocated map; a decoded `null` succeeds and leaves an empty nil map; a failed decode reports the error after the entries already written, and leaves a nil map only if the map was nil and nothing was written |
| Engine.LoadIntoNewEngine | pkg/vector/engine.go:143-152 | decoding into a fresh engine yields exactly the decoded entries, with no error |
| Server.ParseVector | cmd/server/main.go:125-135 | succeeds exactly when every token parses; on success the vector has one value per token, in token order; on failure it names the first unparseable token and yields no vector |
| Server.ParseVectorAppend | main.go:130-141 | parsing two token runs joined together succeeds exactly when both succeed, yielding the joined vectors; an error in the first run is reported unchanged, whatever follows |
| Server.ParseAdd | cmd/server/main.go:80-92 | fewer than two arguments give the usage error; otherwise a bad number gives that token's error; otherwise the command is `Add(args[0], parsed rest)` |
| Server.ParseSearch | cmd/server/main.go:95-108 | no arguments give the usage error; otherwise a bad number gives that token's error; otherwise the command is `Search(query, 3)` with the parsed query |
| Server.Parse | cmd/server/main.go:54-76 | an empty token list is skipped; the first token is matched exactly against ADD, SEARCH and SAVE, and anything else is an unknown command; arity and number rules per command, stated in terms of the whole token list; a parsed ADD vector holds the values of tokens 2 onward and a SEARCH query those of tokens 1 onward, in order; a bad-number error names the first unparseable token among the numeric arguments (never the ADD identifier) |
| Server.Execute | cmd/server/main.go:65-122 | only an ADD command changes the store, by exactly one `Add`, and replies OK; an ADD on a nil map crashes instead, and nothing else does; a search replies "no results" exactly when no candidate is valid, otherwise with the search result in order, at most `limit` lines; usage, bad-number, save and unknown-command replies match their commands |
| Server.HandleLine | cmd/server/main.go:49-77 | no line removes an entry, and a line that changes the store is an ADD with at least two arguments |
| Server.HandleBlankLine | main.go:53-59 | a blank line yields no reply and leaves the store unchanged |
| Server.HandleUnknownCommand | main.go:61-73 | any first token other than ADD, SEARCH and SAVE yields UNKNOWN COMMAND and leaves the store unchanged |
| Server.HandleAddArity | main.go:77-81 | ADD with fewer than two arguments yields the usage error and leaves the store unchanged |
| Server.HandleAddValid | main.go:82-89 | a valid ADD replies OK and stores the parsed vector (same length and order as the tokens) under the first argument, and no other entry changes; on a nil map it crashes and changes nothing |
| Server.HandleSearch | main.go:92-118 | SEARCH never changes the store; without arguments it yields the usage error; it yields a bad-number reply exactly when some argument does not parse, naming the first such token; result replies hold at most 3 results in descending score order; with arguments that all parse, the reply is "no results" exactly when `Search(parsed query, 3)` is empty, and otherwise lists that search result |
| Server.DemoStartup | main.go:14-17 | at startup the store holds exactly `test_doc` mapped to `[0.1, 0.2, 0.3]` |
| Server.ServerStartup | cmd/server/main.go:16-21 | startup loads into a fresh engine: a missing or unopenable file leaves it empty, and a decode leaves exactly the decoded entries (or, on a decode error, those already written); a `null` file leaves an empty nil map |
| Server.NullFileCrashesFirstAdd | pkg/vector/engine.go:143-152 | after starting from a file holding JSON `null`, Load reports no error, and the first valid ADD panics on the nil map instead of replying OK |

## Left out

- Locking and concurrency: the `sync.RWMutex` and the goroutine per connection are not modelled. Each operation is one atomic step on one state.
- Save: the file creation and JSON encoding in `Save` (pkg/vector/engine.go:102-125) have no modelled semantics. A `SAVE` line is dispatched, and whether the write succeeded is an input to `Server.Execute`. No save/load round trip is claimed.
- Load: opening the file and decoding the JSON are not modelled; their outcome is the `FileOutcome` input.
- Engine.Load: a failed decode is modelled as having written some entries, which are given. The model does not say which entries Go's decoder writes before it fails. When a failed decode meets a nil map and writes nothing, the model keeps the map nil; Go keeps it nil or allocates it depending on how far the decoder got, and the contract claims only that an allocated map stays allocated. This case never arises in the server, which loads once into a fresh engine.
- Floating point: vectors are `seq<real>`, and the square root, the division and the score range [-1, 1] are not modelled (the score is a parameter). "Norm zero iff all-zero vector" holds only over the reals, because floats can underflow.
- NaN and infinities: `strconv.ParseFloat` accepts `NaN` and `Inf`. A stored NaN gives NaN scores, and then Go's sort promises no order. The model's reals have no NaN, so `Engine.Search`'s sortedness has no counterpart for such inputs.
- `strings.Fields` and `bufio.Scanner`: a line arrives as its token list.
- Server.Execute: a search reply carries the results themselves, not the `ID: %s, Score: %.4f` text. The greeting and the log messages are not modelled either.
- The `error` that `Search` returns is always nil. The model returns `Success`, so the server's error reply after a search is unreachable and not represented.
- Networking: `net.Listen`, `Accept` and `conn.Write` are not modelled.
- practice.go (an echo server) and test_thread.go (a goroutine demo) are not part of this model.
- A negative `limit` is excluded by precondition, because `results[:limit]` panics for it. The only caller passes 3.
