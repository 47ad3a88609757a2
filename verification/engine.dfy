/**
 * The vector engine of pkg/vector/engine.go (and its copy engine.go): a store
 * from identifier to vector, overwriting insertion, ranked search and the
 * load step at startup. Each operation is one atomic step on an immutable
 * value; the reader/writer lock that makes them atomic in the source is not
 * modelled.
 */
module Engine {
  import opened Wrappers
  import opened Similarity
  import opened Ranking

  /**
   * The engine's state: the map from identifier to vector. `nilMap` records that
   * the map is Go's nil map, which a decoded JSON `null` leaves behind: it reads
   * as empty, and storing into it panics.
   */
  datatype VectorEngine = VectorEngine(data: map<string, Vector>, nilMap: bool)

  /** Errors the engine reports to its callers (Load only; Search never fails). */
  datatype EngineError = OpenError | DecodeError

  /**
   * What opening and decoding the data file produced. File access and JSON
   * decoding are outside the model, so their outcome is an input.
   */
  datatype FileOutcome =
    | Absent                                      // the file does not exist
    | OpenFailed                                  // any other open error
    | Decoded(entries: map<string, Vector>)       // the decoder read these entries
    | DecodedNull                                 // the file holds the JSON value null
    | DecodeFailed(written: map<string, Vector>)  // the decoder failed after writing these

  /** A fresh engine holds no entries, in an allocated map. */
  function NewVectorEngine(): (e: VectorEngine)
    ensures forall id :: id !in e.data
    ensures !e.nilMap
  {
    VectorEngine(map[], false)
  }

  /**
   * Stores `v` under `id`, replacing any previous vector for `id`. Storing into
   * a nil map panics in the source, so the map must be allocated.
   */
  function Add(e: VectorEngine, id: string, v: Vector): (e': VectorEngine)
    requires !e.nilMap
    ensures !e'.nilMap
    ensures e'.data.Keys == e.data.Keys + {id}
    ensures e'.data[id] == v
    ensures forall k :: k in e.data && k != id ==> e'.data[k] == e.data[k]
  {
    VectorEngine(e.data[id := v], false)
  }

  /** Adding twice under one identifier leaves only the second vector. */
  lemma AddOverwrites(e: VectorEngine, id: string, v1: Vector, v2: Vector)
    requires !e.nilMap
    ensures Add(Add(e, id, v1), id, v2) == Add(e, id, v2)
  {
  }

  /** Additions under distinct identifiers do not interfere with each other. */
  lemma AddCommutes(e: VectorEngine, a: string, va: Vector, b: string, vb: Vector)
    requires !e.nilMap && a != b
    ensures Add(Add(e, a, va), b, vb) == Add(Add(e, b, vb), a, va)
  {
  }

  /** No identifier repeats. */
  predicate NoDuplicates(order: seq<string>)
  {
    forall i, j :: 0 <= i < j < |order| ==> order[i] != order[j]
  }

  /**
   * `order` is an order in which Go's `range` may visit the map: every key
   * exactly once. The runtime picks it, so the model takes it as an input.
   */
  predicate IsIterationOrder(order: seq<string>, data: map<string, Vector>)
  {
    && NoDuplicates(order)
    && (forall k :: k in order ==> k in data)
    && (forall k :: k in data ==> k in order)
  }

  /** `r` carries a stored identifier together with its successful similarity score. */
  predicate Scored(data: map<string, Vector>, query: Vector, score: ScoreFn, r: SearchResult)
  {
    r.id in data && CosineSimilarity(query, data[r.id], score) == Success(r.score)
  }

  /** The identifiers whose vectors can be compared with `query`: the valid candidates. */
  function ValidIds(data: map<string, Vector>, query: Vector, score: ScoreFn): set<string>
  {
    set k | k in data && CosineSimilarity(query, data[k], score).Success?
  }

  /**
   * The scan loop of Search: visits the identifiers in `order`, skips every entry
   * whose similarity fails and appends a result for every other one.
   */
  function Scan(data: map<string, Vector>, order: seq<string>, query: Vector, score: ScoreFn): (rs: seq<SearchResult>)
    requires forall k :: k in order ==> k in data
    ensures forall i :: 0 <= i < |rs| ==> Scored(data, query, score, rs[i])
    ensures forall k :: k in Ids(rs) <==> k in order && k in ValidIds(data, query, score)
    ensures NoDuplicates(order) ==> DistinctIds(rs)
  {
    if |order| == 0 then
      []
    else
      var k := order[0];
      var rest := Scan(data, order[1..], query, score);
      assert forall j :: j in order[1..] ==> j in order;
      assert NoDuplicates(order) ==> NoDuplicates(order[1..]) && k !in order[1..] by {
        if NoDuplicates(order) {
          forall i, j | 0 <= i < j < |order[1..]| ensures order[1..][i] != order[1..][j] {
            assert order[1..][i] == order[i + 1] && order[1..][j] == order[j + 1];
          }
          forall j | 0 <= j < |order[1..]| ensures order[1..][j] != k {
            assert order[1..][j] == order[j + 1];
          }
        }
      }
      assert forall j :: j in order <==> j == k || j in order[1..] by {
        assert order == [k] + order[1..];
      }
      match CosineSimilarity(query, data[k], score)
      case Failure(_) => rest
      case Success(s) =>
        var r := SearchResult(k, s);
        IdsCons(r, rest);
        ConsDistinct(r, rest);
        [r] + rest
  }

  /**
   * Search: scores every entry against `query`, drops the failures, sorts by
   * score descending and keeps at most `limit` results. A negative `limit`
   * makes the source's `results[:limit]` panic, so it is excluded.
   */
  function Search(e: VectorEngine, query: Vector, limit: int, order: seq<string>, score: ScoreFn)
    : (r: Result<seq<SearchResult>, EngineError>)
    requires limit >= 0
    requires IsIterationOrder(order, e.data)
    ensures r.Success?
    ensures forall i :: 0 <= i < |r.value| ==> Scored(e.data, query, score, r.value[i])
    ensures DistinctIds(r.value)
    ensures SortedDesc(r.value)
    ensures var n := |ValidIds(e.data, query, score)|; |r.value| == if n > limit then limit else n
    ensures forall k :: k in ValidIds(e.data, query, score) && k !in Ids(r.value) ==>
              forall i :: 0 <= i < |r.value| ==> r.value[i].score >= CosineSimilarity(query, e.data[k], score).value
    ensures |ValidIds(e.data, query, score)| <= limit ==> Ids(r.value) == ValidIds(e.data, query, score)
  {
    var candidates := Scan(e.data, order, query, score);
    var sorted := SortDesc(candidates);
    SortDescIds(candidates);
    DistinctIdsCardinality(candidates);
    SortedScored(e.data, query, score, candidates);
    TopK(e.data, query, score, sorted, limit);
    TruncateKeeps(sorted, limit);
    Success(Truncate(sorted, limit))
  }

  /** Sorting the candidates keeps every one of them scored. */
  lemma SortedScored(data: map<string, Vector>, query: Vector, score: ScoreFn, candidates: seq<SearchResult>)
    requires forall i :: 0 <= i < |candidates| ==> Scored(data, query, score, candidates[i])
    ensures var sorted := SortDesc(candidates);
      forall i :: 0 <= i < |sorted| ==> Scored(data, query, score, sorted[i])
  {
    var sorted := SortDesc(candidates);
    forall i | 0 <= i < |sorted| ensures Scored(data, query, score, sorted[i]) {
      assert sorted[i] in multiset(candidates);
      var j :| 0 <= j < |candidates| && candidates[j] == sorted[i];
    }
  }

  /**
   * Top-k: a valid candidate that the truncation dropped scores no higher than
   * any result it kept.
   */
  lemma TopK(data: map<string, Vector>, query: Vector, score: ScoreFn, sorted: seq<SearchResult>, limit: int)
    requires limit >= 0
    requires forall i :: 0 <= i < |sorted| ==> Scored(data, query, score, sorted[i])
    requires SortedDesc(sorted)
    requires Ids(sorted) == ValidIds(data, query, score)
    ensures var top := Truncate(sorted, limit);
      forall k :: k in ValidIds(data, query, score) && k !in Ids(top) ==>
        forall i :: 0 <= i < |top| ==> top[i].score >= CosineSimilarity(query, data[k], score).value
  {
    var top := Truncate(sorted, limit);
    forall k | k in ValidIds(data, query, score) && k !in Ids(top)
      ensures forall i :: 0 <= i < |top| ==> top[i].score >= CosineSimilarity(query, data[k], score).value
    {
      var y :| y in sorted && y.id == k;
      var j :| 0 <= j < |sorted| && sorted[j] == y;
      assert Scored(data, query, score, sorted[j]);
      forall i | 0 <= i < |top|
        ensures top[i].score >= CosineSimilarity(query, data[k], score).value
      {
        assert top[i] == sorted[i];
      }
    }
  }

  /** Searching an empty store yields an empty result, not an error. */
  lemma SearchEmptyStore(e: VectorEngine, query: Vector, limit: int, order: seq<string>, score: ScoreFn)
    requires limit >= 0
    requires IsIterationOrder(order, e.data)
    requires |e.data| == 0
    ensures Search(e, query, limit, order, score) == Success([])
  {
    assert ValidIds(e.data, query, score) == {};
  }

  /** An entry whose similarity with the query fails never appears in the result. */
  lemma SearchSkipsFailures(e: VectorEngine, query: Vector, limit: int, order: seq<string>, score: ScoreFn, id: string)
    requires limit >= 0
    requires IsIterationOrder(order, e.data)
    requires id in e.data && CosineSimilarity(query, e.data[id], score).Failure?
    ensures id !in Ids(Search(e, query, limit, order, score).value)
  {
  }

  /**
   * When every stored vector is comparable with the query and the limit covers
   * the store, Search returns every identifier: no insert is lost.
   */
  lemma SearchReturnsAll(e: VectorEngine, query: Vector, limit: int, order: seq<string>, score: ScoreFn)
    requires IsIterationOrder(order, e.data)
    requires limit >= |e.data|
    requires forall k :: k in e.data ==> CosineSimilarity(query, e.data[k], score).Success?
    ensures Ids(Search(e, query, limit, order, score).value) == e.data.Keys
    ensures |Search(e, query, limit, order, score).value| == |e.data|
  {
    var valid := ValidIds(e.data, query, score);
    assert valid == e.data.Keys;
    assert |e.data.Keys| == |e.data|;
  }

  /**
   * After adding a vector comparable with the query, the new identifier is a
   * valid candidate, so a search whose limit covers the store returns it.
   */
  lemma SearchFindsAdded(e: VectorEngine, id: string, v: Vector, query: Vector, limit: int, order: seq<string>, score: ScoreFn)
    requires !e.nilMap
    requires |v| == |query| && !IsZero(v) && !IsZero(query)
    requires IsIterationOrder(order, Add(e, id, v).data)
    requires limit > |e.data|
    ensures SearchResult(id, score(query, v)) in Search(Add(e, id, v), query, limit, order, score).value
  {
    var e' := Add(e, id, v);
    var valid := ValidIds(e'.data, query, score);
    assert id in valid;
    assert valid <= e'.data.Keys;
    assert |e'.data.Keys| <= |e.data.Keys| + 1 by {
      assert e'.data.Keys == e.data.Keys + {id};
    }
    assert |valid| <= |e'.data.Keys| by {
      SubsetCardinality(valid, e'.data.Keys);
    }
    var rs := Search(e', query, limit, order, score).value;
    assert id in Ids(rs);
    var y :| y in rs && y.id == id;
    var i :| 0 <= i < |rs| && rs[i] == y;
    assert Scored(e'.data, query, score, rs[i]);
  }

  lemma SubsetCardinality(a: set<string>, b: set<string>)
    requires a <= b
    ensures |a| <= |b|
  {
    assert b == a + (b - a);
  }

  /**
   * Load: a missing file is not an error and changes nothing; any other open
   * error is reported and changes nothing; decoding a JSON object writes the
   * decoded entries into the existing map (merging, not replacing, and
   * allocating the map if it was nil), and a failed decode reports the error
   * after whatever entries it had already written. Decoding a JSON `null` sets
   * the map to nil, dropping every entry, and reports no error.
   */
  function Load(e: VectorEngine, file: FileOutcome): (r: (VectorEngine, Outcome<EngineError>))
    ensures file.Absent? ==> r.0 == e && r.1 == Pass
    ensures file.OpenFailed? ==> r.0 == e && r.1 == Fail(OpenError)
    ensures file.Decoded? ==> r.1 == Pass && !r.0.nilMap && MergedInto(e.data, file.entries, r.0.data)
    ensures file.DecodedNull? ==> r.1 == Pass && r.0.nilMap && r.0.data == map[]
    ensures file.DecodeFailed? ==>
              r.1 == Fail(DecodeError) && MergedInto(e.data, file.written, r.0.data)
              && (r.0.nilMap ==> e.nilMap && file.written == map[])
  {
    match file
    case Absent => (e, Pass)
    case OpenFailed => (e, Fail(OpenError))
    case Decoded(entries) => (VectorEngine(e.data + entries, false), Pass)
    case DecodedNull => (VectorEngine(map[], true), Pass)
    case DecodeFailed(written) =>
      (VectorEngine(e.data + written, e.nilMap && written == map[]), Fail(DecodeError))
  }

  /** `m` holds every entry of `added` and every entry of `base` that `added` does not override. */
  predicate MergedInto(base: map<string, Vector>, added: map<string, Vector>, m: map<string, Vector>)
  {
    && m.Keys == base.Keys + added.Keys
    && (forall k :: k in added ==> m[k] == added[k])
    && (forall k :: k in base && k !in added ==> m[k] == base[k])
  }

  /** Loading a decoded file into a fresh engine yields exactly the decoded entries. */
  lemma LoadIntoNewEngine(entries: map<string, Vector>)
    ensures Load(NewVectorEngine(), Decoded(entries)) == (VectorEngine(entries, false), Pass)
  {
    var r := Load(NewVectorEngine(), Decoded(entries));
    assert r.0.data == entries;
  }
}
