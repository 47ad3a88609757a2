/**
 * Ordering of search results: the descending sort by score and the truncation to
 * a limit that end `Search` (pkg/vector/engine.go, duplicated in engine.go).
 */
module Ranking {

  /** One scored hit, as returned to the caller of `Search`. */
  datatype SearchResult = SearchResult(id: string, score: real)

  /** Scores never increase along the sequence. */
  predicate SortedDesc(rs: seq<SearchResult>)
  {
    forall i, j :: 0 <= i < j < |rs| ==> rs[i].score >= rs[j].score
  }

  /** No identifier occurs twice. */
  predicate DistinctIds(rs: seq<SearchResult>)
  {
    forall i, j :: 0 <= i < j < |rs| ==> rs[i].id != rs[j].id
  }

  /** The identifiers occurring in a result sequence. */
  function Ids(rs: seq<SearchResult>): set<string>
  {
    set r | r in rs :: r.id
  }

  lemma IdsCons(a: SearchResult, rs: seq<SearchResult>)
    ensures Ids([a] + rs) == {a.id} + Ids(rs)
  {
    forall y | y in [a] + rs ensures y == a || y in rs {
    }
  }

  /** A result can be put in front of distinct results exactly when its identifier is new. */
  lemma ConsDistinct(a: SearchResult, rs: seq<SearchResult>)
    ensures DistinctIds([a] + rs) <==> a.id !in Ids(rs) && DistinctIds(rs)
  {
    var s := [a] + rs;
    if DistinctIds(s) {
      forall i, j | 0 <= i < j < |rs| ensures rs[i].id != rs[j].id {
        assert rs[i] == s[i + 1] && rs[j] == s[j + 1];
      }
      forall y | y in rs ensures y.id != a.id {
        var k :| 0 <= k < |rs| && rs[k] == y;
        assert s[0] == a && s[k + 1] == y;
        assert s[0].id != s[k + 1].id;
      }
    }
    if a.id !in Ids(rs) && DistinctIds(rs) {
      ConsDistinctIntro(a, rs);
    }
  }

  lemma ConsDistinctIntro(a: SearchResult, rs: seq<SearchResult>)
    requires a.id !in Ids(rs) && DistinctIds(rs)
    ensures DistinctIds([a] + rs)
  {
    var s := [a] + rs;
    forall i, j | 0 <= i < j < |s| ensures s[i].id != s[j].id {
      assert s[j] == rs[j - 1] && rs[j - 1] in rs;
      if i > 0 {
        assert s[i] == rs[i - 1];
      }
    }
  }

  /** Results that are a permutation of each other carry the same identifiers. */
  lemma PermutationIds(a: seq<SearchResult>, b: seq<SearchResult>)
    requires multiset(a) == multiset(b)
    ensures Ids(a) == Ids(b)
  {
    forall y | y in a ensures y in b {
      assert y in multiset(a);
    }
    forall y | y in b ensures y in a {
      assert y in multiset(b);
    }
  }

  /** With distinct identifiers, there are as many identifiers as results. */
  lemma {:induction false} DistinctIdsCardinality(rs: seq<SearchResult>)
    requires DistinctIds(rs)
    ensures |Ids(rs)| == |rs|
  {
    if |rs| > 0 {
      assert rs == [rs[0]] + rs[1..];
      ConsDistinct(rs[0], rs[1..]);
      IdsCons(rs[0], rs[1..]);
      DistinctIdsCardinality(rs[1..]);
    }
  }

  /**
   * Places `x` in front of the first result that scores strictly lower; one pass
   * of an insertion sort by descending score.
   */
  function Insert(x: SearchResult, rs: seq<SearchResult>): (r: seq<SearchResult>)
    requires SortedDesc(rs)
    ensures SortedDesc(r)
    ensures multiset(r) == multiset(rs) + multiset{x}
  {
    if |rs| == 0 || x.score >= rs[0].score then
      ConsSorted(x, rs);
      [x] + rs
    else
      var head, tail := rs[0], rs[1..];
      assert rs == [head] + tail;
      var rest := Insert(x, tail);
      assert forall i :: 0 <= i < |rest| ==> head.score >= rest[i].score by {
        forall i | 0 <= i < |rest| ensures head.score >= rest[i].score {
          assert rest[i] in multiset(tail) + multiset{x};
        }
      }
      ConsSorted(head, rest);
      [head] + rest
  }

  /** A result scoring at least as high as every element may be put in front of a sorted sequence. */
  lemma ConsSorted(a: SearchResult, rs: seq<SearchResult>)
    requires SortedDesc(rs)
    requires forall i :: 0 <= i < |rs| ==> a.score >= rs[i].score
    ensures SortedDesc([a] + rs)
  {
    var s := [a] + rs;
    forall i, j | 0 <= i < j < |s| ensures s[i].score >= s[j].score {
      assert s[j] == rs[j - 1];
      if i > 0 {
        assert s[i] == rs[i - 1];
      }
    }
  }

  /** Insertion adds exactly the new result's identifier. */
  lemma InsertIds(x: SearchResult, rs: seq<SearchResult>)
    requires SortedDesc(rs)
    ensures Ids(Insert(x, rs)) == Ids(rs) + {x.id}
  {
    var r := Insert(x, rs);
    forall y | y in r ensures y == x || y in rs {
      assert y in multiset(r);
    }
    forall y | y in rs ensures y in r {
      assert y in multiset(r);
    }
    assert x in multiset(r);
  }

  /** Inserting a result with a new identifier keeps identifiers distinct. */
  lemma {:induction false} InsertDistinct(x: SearchResult, rs: seq<SearchResult>)
    requires SortedDesc(rs) && DistinctIds(rs) && x.id !in Ids(rs)
    ensures DistinctIds(Insert(x, rs))
  {
    if |rs| == 0 || x.score >= rs[0].score {
      ConsDistinct(x, rs);
    } else {
      var head, tail := rs[0], rs[1..];
      assert rs == [head] + tail;
      ConsDistinct(head, tail);
      IdsCons(head, tail);
      InsertDistinct(x, tail);
      var rest := Insert(x, tail);
      assert Insert(x, rs) == [head] + rest;
      InsertIds(x, tail);
      ConsDistinct(head, rest);
    }
  }

  /**
   * Insertion sort by descending score. The relative order of equal scores is one
   * of the orders the source's unstable sort may produce; no contract fixes it.
   */
  function SortDesc(rs: seq<SearchResult>): (r: seq<SearchResult>)
    ensures SortedDesc(r)
    ensures multiset(r) == multiset(rs)
  {
    if |rs| == 0 then
      []
    else
      assert rs == [rs[0]] + rs[1..];
      Insert(rs[0], SortDesc(rs[1..]))
  }

  /** Sorting keeps the identifiers, and keeps them distinct. */
  lemma {:induction false} SortDescIds(rs: seq<SearchResult>)
    ensures Ids(SortDesc(rs)) == Ids(rs)
    ensures DistinctIds(rs) ==> DistinctIds(SortDesc(rs))
  {
    PermutationIds(SortDesc(rs), rs);
    if |rs| > 0 && DistinctIds(rs) {
      assert rs == [rs[0]] + rs[1..];
      ConsDistinct(rs[0], rs[1..]);
      SortDescIds(rs[1..]);
      InsertDistinct(rs[0], SortDesc(rs[1..]));
    }
  }

  /** The first `limit` results when there are more than `limit`, else all of them. */
  function Truncate(rs: seq<SearchResult>, limit: int): (r: seq<SearchResult>)
    requires limit >= 0
    ensures |r| == if |rs| > limit then limit else |rs|
    ensures r == rs[..|r|]
  {
    if |rs| > limit then rs[..limit] else rs
  }

  /** A prefix of a sorted result sequence with distinct identifiers is again both. */
  lemma TruncateKeeps(rs: seq<SearchResult>, limit: int)
    requires limit >= 0
    ensures SortedDesc(rs) ==> SortedDesc(Truncate(rs, limit))
    ensures DistinctIds(rs) ==> DistinctIds(Truncate(rs, limit))
    ensures |rs| <= limit ==> Truncate(rs, limit) == rs
  {
  }
}
