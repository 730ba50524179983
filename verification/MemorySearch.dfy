/**
 Memory search, written twice: `SearchPython` scores and sorts in the program, the
 Postgres search orders by cosine distance in the database.
 */
module MemorySearch {
  import opened Options
  import opened VectorText
  import opened Vectors
  import opened SqlFilters
  import opened StableSort
  import Cosine

  datatype SearchRow = SearchRow(document: Document, chunkId: Id, score: real)

  // ----- candidates -----

  function EligibleRows(search: Search, joined: seq<Joined>): (rows: seq<Joined>)
    ensures forall i :: 0 <= i < |rows| ==> rows[i] in joined && Eligible(search, rows[i])
    ensures forall row :: row in joined && Eligible(search, row) ==> row in rows
  {
    if joined == [] then []
    else
      var last := joined[|joined| - 1];
      EligibleRows(search, joined[..|joined| - 1]) + if Eligible(search, last) then [last] else []
  }

  /** `db_to_vector(embedding.embedding)` succeeds on every eligible row. */
  predicate Readable(search: Search, joined: seq<Joined>)
  {
    forall i :: 0 <= i < |joined| && Eligible(search, joined[i]) ==> DbToVector(joined[i].embedding).Some?
  }

  function EmbeddingOf(row: Joined): Vector
  {
    DbToVector(row.embedding).GetOr([])
  }

  function Scored(sqrt: real -> real, query: Vector): Joined -> SearchRow
  {
    (row: Joined) => SearchRow(row.document, row.chunkId, Cosine.CosineSimilarity(sqrt, query, EmbeddingOf(row)))
  }

  function ByScore(): (SearchRow, SearchRow) -> bool { (a: SearchRow, b: SearchRow) => a.score >= b.score }

  /** `rows[:limit]`: a negative limit drops that many rows from the end. */
  function Slice<T>(rows: seq<T>, limit: int): (r: seq<T>)
    ensures r <= rows
    ensures 0 <= limit ==> |r| == if limit <= |rows| then limit else |rows|
    ensures limit < 0 ==> |r| == if |rows| + limit >= 0 then |rows| + limit else 0
  {
    if 0 <= limit <= |rows| then rows[..limit]
    else if limit > |rows| then rows
    else if |rows| + limit >= 0 then rows[..|rows| + limit]
    else []
  }

  function Candidates(sqrt: real -> real, search: Search, joined: seq<Joined>): seq<SearchRow>
  {
    Map(Scored(sqrt, search.query), EligibleRows(search, joined))
  }

  function Ranked(sqrt: real -> real, search: Search, joined: seq<Joined>): seq<SearchRow>
  {
    Slice(Sort(ByScore(), Candidates(sqrt, search, joined)), search.limit)
  }

  /**
   The search in the program. None stands for the ValueError of an unreadable embedding.
   */
  method SearchPython(sqrt: real -> real, search: Search, joined: seq<Joined>) returns (result: Option<seq<SearchRow>>)
    ensures result.Some? <==> Readable(search, joined)
    ensures result.Some? ==> result.value == Ranked(sqrt, search, joined)
  {
    var statement := OrmFilters(search);
    var rows: seq<SearchRow> := [];
    for i := 0 to |joined|
      invariant rows == Candidates(sqrt, search, joined[..i])
      invariant Readable(search, joined[..i])
    {
      OrmSelectsEligible(search, joined[i]);
      OneMoreCandidate(sqrt, search, joined[..i], joined[i]);
      assert joined[..i + 1] == joined[..i] + [joined[i]];
      if Selected(statement, map[], joined[i]) {
        var vector := DbToVector(joined[i].embedding);
        if vector.None? {
          UnreadableRow(search, joined, i);
          return None;
        }
        var score := Cosine.CosineSimilarity(sqrt, search.query, vector.value);
        var row := SearchRow(joined[i].document, joined[i].chunkId, score);
        assert row == Scored(sqrt, search.query)(joined[i]);
        rows := rows + [row];
      }
    }
    assert joined[..|joined|] == joined;
    return Some(Slice(Sort(ByScore(), rows), search.limit));
  }

  lemma MapAppend<T, U>(f: T -> U, s: seq<T>, x: T)
    ensures Map(f, s + [x]) == Map(f, s) + [f(x)]
  {
  }

  lemma UnreadableRow(search: Search, joined: seq<Joined>, i: nat)
    requires i < |joined| && Eligible(search, joined[i]) && DbToVector(joined[i].embedding).None?
    ensures !Readable(search, joined)
  {
  }

  /** What one more row of the table does to the loop's result. */
  lemma OneMoreCandidate(sqrt: real -> real, search: Search, rows: seq<Joined>, row: Joined)
    ensures Candidates(sqrt, search, rows + [row])
      == Candidates(sqrt, search, rows) + if Eligible(search, row) then [Scored(sqrt, search.query)(row)] else []
    ensures Readable(search, rows + [row])
      <==> Readable(search, rows) && (Eligible(search, row) ==> DbToVector(row.embedding).Some?)
  {
    var all := rows + [row];
    OneMoreEligible(search, rows, row);
    MapAppend(Scored(sqrt, search.query), EligibleRows(search, rows), row);
    assert forall i :: 0 <= i < |rows| ==> all[i] == rows[i];
    assert all[|rows|] == row;
  }

  // ----- what the ranking returns -----

  lemma ByScoreIsOrder()
    ensures TotalPreorder(ByScore())
  {
  }

  ghost predicate Descending(rows: seq<SearchRow>)
  {
    forall i, j :: 0 <= i < j < |rows| ==> rows[i].score >= rows[j].score
  }

  ghost predicate DistinctChunks(joined: seq<Joined>)
  {
    forall i, j :: 0 <= i < j < |joined| ==> joined[i].chunkId != joined[j].chunkId
  }

  lemma OneMoreEligible(search: Search, rows: seq<Joined>, row: Joined)
    ensures EligibleRows(search, rows + [row]) == EligibleRows(search, rows) + if Eligible(search, row) then [row] else []
  {
    assert (rows + [row])[..|rows|] == rows;
  }

  /** Eligible rows come in the order in which the database delivered them. */
  lemma {:induction false} EligibleRowsInOrder(search: Search, a: seq<Joined>, b: seq<Joined>)
    ensures EligibleRows(search, a + b) == EligibleRows(search, a) + EligibleRows(search, b)
  {
    if b == [] {
      assert a + b == a;
    } else {
      var init, last := b[..|b| - 1], b[|b| - 1];
      EligibleRowsInOrder(search, a, init);
      OneMoreEligible(search, a + init, last);
      OneMoreEligible(search, init, last);
      assert b == init + [last];
      assert a + b == (a + init) + [last];
    }
  }

  /**
   Every returned row is a row of the table that the search may return, with its own chunk
   and the cosine score of its own embedding, and rows come best first.
   */
  lemma RankedRowsAreEligible(sqrt: real -> real, search: Search, joined: seq<Joined>)
    ensures Descending(Ranked(sqrt, search, joined))
    ensures forall row :: row in Ranked(sqrt, search, joined) ==>
      exists source :: source in EligibleRows(search, joined) && row == Scored(sqrt, search.query)(source)
    ensures forall row :: row in Ranked(sqrt, search, joined) ==>
      exists source :: source in joined && Eligible(search, source)
        && row.document == source.document && row.chunkId == source.chunkId
        && row.score == Cosine.CosineSimilarity(sqrt, search.query, DbToVector(source.embedding).GetOr([]))
  {
    var candidates := Candidates(sqrt, search, joined);
    var sorted := Sort(ByScore(), candidates);
    SortedDescends(sqrt, search, joined);
    SortPermutes(ByScore(), candidates);
    forall row | row in Ranked(sqrt, search, joined)
      ensures exists source :: source in EligibleRows(search, joined) && row == Scored(sqrt, search.query)(source)
    {
      var k :| 0 <= k < |Ranked(sqrt, search, joined)| && Ranked(sqrt, search, joined)[k] == row;
      assert sorted[k] == row;
      MemberOfPermutation(sorted, candidates, k);
      var i :| 0 <= i < |candidates| && candidates[i] == row;
      assert EligibleRows(search, joined)[i] in EligibleRows(search, joined);
    }
    forall row | row in Ranked(sqrt, search, joined)
      ensures exists source :: (source in joined && Eligible(search, source)
        && row.document == source.document && row.chunkId == source.chunkId
        && row.score == Cosine.CosineSimilarity(sqrt, search.query, DbToVector(source.embedding).GetOr([])))
    {
      var source :| source in EligibleRows(search, joined) && row == Scored(sqrt, search.query)(source);
      assert source in joined && Eligible(search, source);
    }
  }

  /** The number of rows, for a limit of either sign. */
  lemma RankedLength(sqrt: real -> real, search: Search, joined: seq<Joined>)
    ensures var n := |EligibleRows(search, joined)|;
      |Ranked(sqrt, search, joined)| ==
        if search.limit >= 0 then (if search.limit <= n then search.limit else n)
        else if n + search.limit >= 0 then n + search.limit else 0
  {
    SortPermutes(ByScore(), Candidates(sqrt, search, joined));
  }

  lemma PrefixOfDescending(sorted: seq<SearchRow>, returned: seq<SearchRow>)
    requires Descending(sorted) && returned <= sorted
    ensures var omitted := sorted[|returned|..];
      && multiset(returned) + multiset(omitted) == multiset(sorted)
      && (forall i, j :: 0 <= i < |returned| && 0 <= j < |omitted| ==> omitted[j].score <= returned[i].score)
  {
    assert sorted == returned + sorted[|returned|..];
    assert forall j :: 0 <= j < |sorted| - |returned| ==> sorted[|returned|..][j] == sorted[|returned| + j];
  }

  /**
   Nothing better is left out: the rows split into the returned ones and the omitted
   ones, and no omitted row outscores a returned one.
   */
  lemma OmittedRowsScoreNoHigher(sqrt: real -> real, search: Search, joined: seq<Joined>)
    ensures var sorted := Sort(ByScore(), Candidates(sqrt, search, joined));
      var returned := Ranked(sqrt, search, joined);
      var omitted := sorted[|returned|..];
      && multiset(returned) + multiset(omitted) == multiset(Candidates(sqrt, search, joined))
      && (forall i, j :: 0 <= i < |returned| && 0 <= j < |omitted| ==> omitted[j].score <= returned[i].score)
  {
    SortPermutes(ByScore(), Candidates(sqrt, search, joined));
    SortedDescends(sqrt, search, joined);
    PrefixOfDescending(Sort(ByScore(), Candidates(sqrt, search, joined)), Ranked(sqrt, search, joined));
  }

  lemma SortedDescends(sqrt: real -> real, search: Search, joined: seq<Joined>)
    ensures Descending(Sort(ByScore(), Candidates(sqrt, search, joined)))
  {
    var sorted := Sort(ByScore(), Candidates(sqrt, search, joined));
    ByScoreIsOrder();
    SortSorts(ByScore(), Candidates(sqrt, search, joined));
    forall i, j | 0 <= i < j < |sorted|
      ensures sorted[i].score >= sorted[j].score
    {
      assert ByScore()(sorted[i], sorted[j]);
    }
  }

  /** Rows of one score keep the order in which the database delivered them. */
  lemma TiesKeepTheirOrder(sqrt: real -> real, search: Search, joined: seq<Joined>, score: real)
    ensures var tied := (row: SearchRow) => row.score == score;
      Filter(tied, Ranked(sqrt, search, joined)) <= Filter(tied, Candidates(sqrt, search, joined))
  {
    var tied := (row: SearchRow) => row.score == score;
    var candidates := Candidates(sqrt, search, joined);
    SortIsStable(ByScore(), tied, candidates);
    FilterOfPrefix(tied, Ranked(sqrt, search, joined), Sort(ByScore(), candidates));
  }

  lemma {:induction false} EligibleRowsKeepChunksDistinct(search: Search, joined: seq<Joined>)
    requires DistinctChunks(joined)
    ensures DistinctChunks(EligibleRows(search, joined))
  {
    if joined == [] {
    } else {
      var init := joined[..|joined| - 1];
      EligibleRowsKeepChunksDistinct(search, init);
      forall i | 0 <= i < |EligibleRows(search, init)|
        ensures EligibleRows(search, init)[i].chunkId != joined[|joined| - 1].chunkId
      {
        assert EligibleRows(search, init)[i] in init;
      }
    }
  }

  /** No row is returned twice. */
  lemma RankedRowsAreDistinct(sqrt: real -> real, search: Search, joined: seq<Joined>)
    requires DistinctChunks(joined)
    ensures forall i, j :: 0 <= i < j < |Ranked(sqrt, search, joined)| ==>
      Ranked(sqrt, search, joined)[i] != Ranked(sqrt, search, joined)[j]
  {
    var candidates := Candidates(sqrt, search, joined);
    var sorted := Sort(ByScore(), candidates);
    EligibleRowsKeepChunksDistinct(search, joined);
    SortPermutes(ByScore(), candidates);
    DistinctPermutation(candidates, sorted);
  }

  lemma {:induction false} DistinctMultiplicity<T>(s: seq<T>, x: T)
    requires forall i, j :: 0 <= i < j < |s| ==> s[i] != s[j]
    ensures multiset(s)[x] <= 1
  {
    if s == [] {
    } else {
      DistinctMultiplicity(s[1..], x);
      assert s == [s[0]] + s[1..];
      if x == s[0] {
        assert x !in s[1..];
      }
    }
  }

  lemma DistinctPermutation<T>(a: seq<T>, b: seq<T>)
    requires forall i, j :: 0 <= i < j < |a| ==> a[i] != a[j]
    requires multiset(a) == multiset(b)
    ensures forall i, j :: 0 <= i < j < |b| ==> b[i] != b[j]
  {
    forall i, j | 0 <= i < j < |b|
      ensures b[i] != b[j]
    {
      DistinctMultiplicity(a, b[i]);
      assert b == b[..j] + b[j..];
    }
  }

  // ----- the search in the database -----

  /** A row the statement returns; its score is None where the database computes NaN. */
  datatype FoundRow = FoundRow(document: Document, chunkId: Id, score: Option<real>)

  /** What the `<=>` operator computes; NaN when a vector is zero. */
  function CosineDistance(sqrt: real -> real, a: Vector, b: Vector): Option<real>
    requires |a| == |b|
  {
    OneMinus(Cosine.Dot(a, b), sqrt(Times(Cosine.Dot(a, a), Cosine.Dot(b, b))))
  }

  function Times(x: real, y: real): real { x * y }

  function OneMinus(p: real, norms: real): Option<real>
  {
    if norms == 0.0 then None else Some(1.0 - p / norms)
  }

  /** The order of the column: NaN sorts after every number. */
  predicate NotFarther(x: Option<real>, y: Option<real>)
  {
    y.None? || (x.Some? && x.value <= y.value)
  }

  ghost predicate Comparables(search: Search, query: Vector, joined: seq<Joined>)
  {
    forall row :: row in EligibleRows(search, joined) ==> Cosine.Comparable(EmbeddingOf(row), query)
  }

  function SelectedRows(filters: seq<Condition>, params: Params, joined: seq<Joined>): seq<Joined>
  {
    if joined == [] then []
    else
      var last := joined[|joined| - 1];
      SelectedRows(filters, params, joined[..|joined| - 1]) + if Selected(filters, params, last) then [last] else []
  }

  /** The vector the statement casts from its `query_embedding` parameter. */
  function CastQuery(params: Params): Vector
  {
    if "query_embedding" in params && params["query_embedding"].TextValue? then
      DbToVector(params["query_embedding"].text).GetOr([])
    else []
  }

  /** The value of the statement's `limit` parameter. */
  function BoundLimit(params: Params): nat
  {
    if "limit" in params && params["limit"].NumberValue? && params["limit"].number >= 0 then params["limit"].number else 0
  }

  function DistanceOf(sqrt: real -> real, query: Vector, row: Joined): Option<real>
  {
    if |EmbeddingOf(row)| == |query| then CosineDistance(sqrt, EmbeddingOf(row), query) else None
  }

  function ScoreAt(distance: Option<real>): Option<real>
  {
    if distance.Some? then Some(1.0 - distance.value) else None
  }

  function PostgresRow(sqrt: real -> real, query: Vector): Joined -> FoundRow
  {
    (row: Joined) => FoundRow(row.document, row.chunkId, ScoreAt(DistanceOf(sqrt, query, row)))
  }

  /**
   `rows` is one of the results the statement may return. SQL leaves the order of equal
   distances open, so `order` is any arrangement of the selected rows by distance.
   */
  ghost predicate PostgresReturns(
    sqrt: real -> real, filters: seq<Condition>, params: Params, joined: seq<Joined>,
    order: seq<Joined>, rows: seq<FoundRow>)
  {
    var query := CastQuery(params);
    && multiset(order) == multiset(SelectedRows(filters, params, joined))
    && (forall i :: 0 <= i < |order| ==> |EmbeddingOf(order[i])| == |query|)
    && (forall i, j :: 0 <= i < j < |order| ==>
         NotFarther(DistanceOf(sqrt, query, order[i]), DistanceOf(sqrt, query, order[j])))
    && rows == Slice(Map(PostgresRow(sqrt, query), order), BoundLimit(params))
  }

  function Scores(rows: seq<SearchRow>): seq<real>
  {
    Map((row: SearchRow) => row.score, rows)
  }

  function FoundScores(rows: seq<FoundRow>): seq<Option<real>>
  {
    Map((row: FoundRow) => row.score, rows)
  }

  /** The scores as the database would have to return them. */
  function Numbers(scores: seq<real>): seq<Option<real>>
  {
    Map((score: real) => Some(score), scores)
  }

  lemma QuotientIsRatio(p: real, m: real, n: real, d: real)
    requires m > 0.0 && n > 0.0 && d == m * n
    ensures OneMinus(p, d) == Some(1.0 - Cosine.Ratio(p, m, n))
  {
    Cosine.PositiveProduct(m, n, d);
  }

  lemma RatioOfRoots(sqrt: real -> real, p: real, x: real, y: real, m: real, n: real)
    requires Cosine.IsSquareRoot(sqrt) && x >= 0.0 && y >= 0.0
    requires m == sqrt(x) && n == sqrt(y) && m > 0.0 && n > 0.0
    ensures OneMinus(p, sqrt(Times(x, y))) == Some(1.0 - Cosine.Ratio(p, m, n))
  {
    Cosine.RootOfProduct(sqrt, x, y, Times(x, y));
    QuotientIsRatio(p, m, n, sqrt(Times(x, y)));
  }

  lemma DistanceIsRatio(sqrt: real -> real, a: Vector, b: Vector)
    requires Cosine.IsSquareRoot(sqrt) && |a| == |b|
    requires Cosine.Norm(sqrt, a) > 0.0 && Cosine.Norm(sqrt, b) > 0.0
    ensures CosineDistance(sqrt, a, b)
      == Some(1.0 - Cosine.Ratio(Cosine.Dot(a, b), Cosine.Norm(sqrt, a), Cosine.Norm(sqrt, b)))
  {
    Cosine.SquaredNormNonNegative(a);
    Cosine.SquaredNormNonNegative(b);
    RatioOfRoots(
      sqrt, Cosine.Dot(a, b), Cosine.Dot(a, a), Cosine.Dot(b, b), Cosine.Norm(sqrt, a), Cosine.Norm(sqrt, b));
  }

  lemma DistanceIsCosine(sqrt: real -> real, a: Vector, b: Vector)
    requires Cosine.IsSquareRoot(sqrt) && Cosine.Comparable(a, b)
    ensures CosineDistance(sqrt, a, b).Some?
    ensures 1.0 - CosineDistance(sqrt, a, b).value == Cosine.CosineSimilarity(sqrt, b, a)
  {
    Cosine.ScoreSymmetric(sqrt, a, b);
    Cosine.ScoreIsQuotient(sqrt, a, b);
    DistanceIsRatio(sqrt, a, b);
  }

  /** The distance to or from a zero vector is NaN. */
  lemma ZeroDistanceIsNaN(sqrt: real -> real, a: Vector, b: Vector)
    requires Cosine.IsSquareRoot(sqrt) && |a| == |b| && (Cosine.IsZero(a) || Cosine.IsZero(b))
    ensures CosineDistance(sqrt, a, b).None?
  {
    Cosine.NormPositive(sqrt, a);
    Cosine.NormPositive(sqrt, b);
    Cosine.SquaredNormNonNegative(a);
    Cosine.SquaredNormNonNegative(b);
    Cosine.RootZero(sqrt, Cosine.Dot(a, a));
    Cosine.RootZero(sqrt, Cosine.Dot(b, b));
    assert Cosine.Dot(a, a) == 0.0 || Cosine.Dot(b, b) == 0.0;
    Cosine.RootZero(sqrt, 0.0);
  }

  lemma {:induction false} SelectedAreEligible(search: Search, filters: seq<Condition>, params: Params, joined: seq<Joined>)
    requires filters == TextFilters(search) && BindsSearch(search, params)
    ensures SelectedRows(filters, params, joined) == EligibleRows(search, joined)
  {
    if joined == [] {
    } else {
      SelectedAreEligible(search, filters, params, joined[..|joined| - 1]);
      TextSelectsEligible(search, params, joined[|joined| - 1]);
    }
  }

  lemma CastQueryIsRounded(search: Search, params: Params)
    requires BindsSearch(search, params)
    ensures CastQuery(params) == Rounded(search.query)
  {
    RoundTrip(search.query);
  }

  /** The same search with the query as the database sees it, rounded to eight places. */
  function WithRoundedQuery(search: Search): Search { search.(query := Rounded(search.query)) }

  lemma {:induction false} SameEligibleRows(search: Search, other: Search, joined: seq<Joined>)
    requires other == search.(query := other.query)
    ensures EligibleRows(other, joined) == EligibleRows(search, joined)
  {
    if joined == [] {
    } else {
      SameEligibleRows(search, other, joined[..|joined| - 1]);
    }
  }

  lemma SliceOfMap<T, U>(f: T -> U, s: seq<T>, limit: int)
    ensures Map(f, Slice(s, limit)) == Slice(Map(f, s), limit)
  {
  }

  function NotBelow(): (real, real) -> bool { (x: real, y: real) => x >= y }

  lemma RowIsScored(sqrt: real -> real, query: Vector, row: Joined)
    requires Cosine.IsSquareRoot(sqrt) && Cosine.Comparable(EmbeddingOf(row), query)
    ensures DistanceOf(sqrt, query, row) == Some(1.0 - Scored(sqrt, query)(row).score)
    ensures PostgresRow(sqrt, query)(row).score == Some(Scored(sqrt, query)(row).score)
  {
    DistanceIsCosine(sqrt, EmbeddingOf(row), query);
  }

  lemma SameMembers<T>(a: seq<T>, b: seq<T>)
    requires multiset(a) == multiset(b)
    ensures forall x :: x in a ==> x in b
  {
    forall x | x in a
      ensures x in b
    {
      assert x in multiset(a);
    }
  }

  /** Rows found with the scores of the program carry these scores. */
  lemma FoundAreScored(found: Joined -> FoundRow, scored: Joined -> SearchRow, order: seq<Joined>)
    requires forall row :: row in order ==> found(row).score == Some(scored(row).score)
    ensures FoundScores(Map(found, order)) == Numbers(Scores(Map(scored, order)))
  {
    assert forall i :: 0 <= i < |order| ==> order[i] in order;
  }

  /** In the order of their distances, scores descend. */
  lemma DistancesOrderScores(distance: Joined -> Option<real>, scored: Joined -> SearchRow, order: seq<Joined>)
    requires forall row :: row in order ==> distance(row) == Some(1.0 - scored(row).score)
    requires forall i, j :: 0 <= i < j < |order| ==> NotFarther(distance(order[i]), distance(order[j]))
    ensures SortedBy(NotBelow(), Scores(Map(scored, order)))
  {
    var scores := Scores(Map(scored, order));
    forall i, j | 0 <= i < j < |order|
      ensures NotBelow()(scores[i], scores[j])
    {
      assert order[i] in order && order[j] in order;
      assert NotFarther(distance(order[i]), distance(order[j]));
    }
  }

  function DistanceTo(sqrt: real -> real, query: Vector): Joined -> Option<real>
  {
    (row: Joined) => DistanceOf(sqrt, query, row)
  }

  lemma PostgresRowsAreScored(sqrt: real -> real, query: Vector, order: seq<Joined>)
    requires Cosine.IsSquareRoot(sqrt)
    requires forall row :: row in order ==> Cosine.Comparable(EmbeddingOf(row), query)
    ensures forall row :: row in order ==>
      && PostgresRow(sqrt, query)(row).score == Some(Scored(sqrt, query)(row).score)
      && DistanceTo(sqrt, query)(row) == Some(1.0 - Scored(sqrt, query)(row).score)
  {
    forall row | row in order
      ensures PostgresRow(sqrt, query)(row).score == Some(Scored(sqrt, query)(row).score)
      ensures DistanceTo(sqrt, query)(row) == Some(1.0 - Scored(sqrt, query)(row).score)
    {
      RowIsScored(sqrt, query, row);
    }
  }

  /** What the database finds carries the program's scores, in descending order. */
  lemma FoundInOrder(sqrt: real -> real, query: Vector, order: seq<Joined>)
    requires Cosine.IsSquareRoot(sqrt)
    requires forall row :: row in order ==> Cosine.Comparable(EmbeddingOf(row), query)
    requires forall i, j :: 0 <= i < j < |order| ==>
      NotFarther(DistanceOf(sqrt, query, order[i]), DistanceOf(sqrt, query, order[j]))
    ensures FoundScores(Map(PostgresRow(sqrt, query), order)) == Numbers(Scores(Map(Scored(sqrt, query), order)))
    ensures SortedBy(NotBelow(), Scores(Map(Scored(sqrt, query), order)))
  {
    PostgresRowsAreScored(sqrt, query, order);
    FoundAreScored(PostgresRow(sqrt, query), Scored(sqrt, query), order);
    DistancesOrderScores(DistanceTo(sqrt, query), Scored(sqrt, query), order);
  }

  lemma SortedScoresDescend(sqrt: real -> real, search: Search, joined: seq<Joined>)
    ensures SortedBy(NotBelow(), Scores(Sort(ByScore(), Candidates(sqrt, search, joined))))
  {
    SortedDescends(sqrt, search, joined);
  }

  /**
   The two searches agree: whatever arrangement the database picks, it considers exactly
   the rows the program considers, and the score sequence it returns is the one the
   program returns for the query rounded to eight decimal places.
   */
  lemma SearchesAgree(
    sqrt: real -> real, search: Search, filters: seq<Condition>, params: Params, joined: seq<Joined>,
    order: seq<Joined>, rows: seq<FoundRow>)
    requires Cosine.IsSquareRoot(sqrt) && search.limit >= 0
    requires filters == TextFilters(search) && BindsSearch(search, params)
    requires Comparables(search, Rounded(search.query), joined)
    requires PostgresReturns(sqrt, filters, params, joined, order, rows)
    ensures multiset(order) == multiset(EligibleRows(search, joined))
    ensures FoundScores(rows) == Numbers(Scores(Ranked(sqrt, WithRoundedQuery(search), joined)))
  {
    var rounded := WithRoundedQuery(search);
    var query := rounded.query;
    var eligible := EligibleRows(search, joined);
    var score := (row: SearchRow) => row.score;
    var found := Map(Scored(sqrt, query), order);
    var sorted := Sort(ByScore(), Candidates(sqrt, rounded, joined));
    SelectedAreEligible(search, filters, params, joined);
    CastQueryIsRounded(search, params);
    SameEligibleRows(search, rounded, joined);
    SameMembers(order, eligible);
    FoundInOrder(sqrt, query, order);
    MapPermutes(Scored(sqrt, query), order, eligible);
    SortPermutes(ByScore(), Candidates(sqrt, rounded, joined));
    MapPermutes(score, found, sorted);
    SortedScoresDescend(sqrt, rounded, joined);
    SortedIsUnique(NotBelow(), Scores(found), Scores(sorted));
    SlicedScores(sqrt, query, order, found, sorted, search.limit);
  }

  lemma SlicedScores(
    sqrt: real -> real, query: Vector, order: seq<Joined>, found: seq<SearchRow>, sorted: seq<SearchRow>, limit: int)
    requires FoundScores(Map(PostgresRow(sqrt, query), order)) == Numbers(Scores(found))
    requires Scores(found) == Scores(sorted)
    ensures FoundScores(Slice(Map(PostgresRow(sqrt, query), order), limit)) == Numbers(Scores(Slice(sorted, limit)))
  {
    SliceOfMap((row: FoundRow) => row.score, Map(PostgresRow(sqrt, query), order), limit);
    SliceOfMap((row: SearchRow) => row.score, sorted, limit);
    SliceOfMap((score: real) => Some(score), Scores(sorted), limit);
  }

  /** For a query of eight-place decimals the two score sequences are the same. */
  lemma SearchesAgreeOnGrid(
    sqrt: real -> real, search: Search, filters: seq<Condition>, params: Params, joined: seq<Joined>,
    order: seq<Joined>, rows: seq<FoundRow>)
    requires Cosine.IsSquareRoot(sqrt) && search.limit >= 0
    requires filters == TextFilters(search) && BindsSearch(search, params)
    requires forall i :: 0 <= i < |search.query| ==> OnGrid(search.query[i])
    requires Comparables(search, search.query, joined)
    requires PostgresReturns(sqrt, filters, params, joined, order, rows)
    ensures FoundScores(rows) == Numbers(Scores(Ranked(sqrt, search, joined)))
  {
    forall i | 0 <= i < |search.query|
      ensures Rounded(search.query)[i] == search.query[i]
    {
      NearestIsExactOnGrid(search.query[i]);
    }
    assert Rounded(search.query) == search.query;
    SearchesAgree(sqrt, search, filters, params, joined, order, rows);
  }

  // ----- the database always answers -----

  function ByDistance(sqrt: real -> real, query: Vector): (Joined, Joined) -> bool
  {
    (a: Joined, b: Joined) => NotFarther(DistanceOf(sqrt, query, a), DistanceOf(sqrt, query, b))
  }

  /** For every table of embeddings of the query's dimension the statement has a result. */
  lemma DatabaseAnswers(sqrt: real -> real, filters: seq<Condition>, params: Params, joined: seq<Joined>)
    returns (order: seq<Joined>, rows: seq<FoundRow>)
    requires forall row :: row in joined ==> |EmbeddingOf(row)| == |CastQuery(params)|
    ensures PostgresReturns(sqrt, filters, params, joined, order, rows)
  {
    var query, selected := CastQuery(params), SelectedRows(filters, params, joined);
    order := Sort(ByDistance(sqrt, query), selected);
    rows := Slice(Map(PostgresRow(sqrt, query), order), BoundLimit(params));
    SortSorts(ByDistance(sqrt, query), selected);
    SortPermutes(ByDistance(sqrt, query), selected);
    forall i | 0 <= i < |order|
      ensures |EmbeddingOf(order[i])| == |query|
    {
      MemberOfPermutation(order, selected, i);
      SelectedRowsAreJoined(filters, params, joined);
    }
  }

  lemma {:induction false} SelectedRowsAreJoined(filters: seq<Condition>, params: Params, joined: seq<Joined>)
    ensures forall row :: row in SelectedRows(filters, params, joined) ==> row in joined
  {
    if joined == [] {
    } else {
      SelectedRowsAreJoined(filters, params, joined[..|joined| - 1]);
    }
  }

  // ----- when the two searches agree -----

  /** Embeddings the vector column compares: of the query's dimension, and not zero. */
  predicate Indexed(search: Search, joined: seq<Joined>)
  {
    forall row :: row in joined ==> |EmbeddingOf(row)| == |search.query| && !Cosine.IsZero(EmbeddingOf(row))
  }

  /** Whatever the database returns for the table, it scores as the program does. */
  ghost predicate AgreeOn(sqrt: real -> real, search: Search, joined: seq<Joined>)
    requires search.limit >= 0
  {
    forall params, order, rows ::
      BindsSearch(search, params) && PostgresReturns(sqrt, TextFilters(search), params, joined, order, rows)
      ==> FoundScores(rows) == Numbers(Scores(Ranked(sqrt, search, joined)))
  }

  /** A table of one row that the search reaches, holding the given embedding. */
  function OneRowTable(search: Search, embedding: Vector): seq<Joined>
  {
    [Joined(
       Document(
         0, search.workspaceId, search.projectId, search.sessionId,
         if FiltersVisibility(search) then search.visibility.value[0] else "workspace", "approved", None),
       0, search.embeddingModel.GetOr(""), VectorToDb(embedding))]
  }

  lemma OneRowRanked(sqrt: real -> real, search: Search, embedding: Vector)
    requires search.limit >= 1
    ensures EligibleRows(search, OneRowTable(search, embedding)) == OneRowTable(search, embedding)
    ensures EmbeddingOf(OneRowTable(search, embedding)[0]) == Rounded(embedding)
    ensures Scores(Ranked(sqrt, search, OneRowTable(search, embedding)))
      == [Cosine.CosineSimilarity(sqrt, search.query, Rounded(embedding))]
  {
    var joined := OneRowTable(search, embedding);
    RoundTrip(embedding);
    assert Eligible(search, joined[0]);
    assert joined[..0] == [];
    assert EligibleRows(search, joined) == EligibleRows(search, joined[..0]) + [joined[0]];
    var row := Scored(sqrt, search.query)(joined[0]);
    assert Candidates(sqrt, search, joined) == [row];
    assert Sort(ByScore(), [row]) == [row];
    assert Slice([row], search.limit) == [row];
  }

  /** The database finds that row, and no other. */
  lemma OneRowOrder(
    sqrt: real -> real, search: Search, embedding: Vector, params: Params, order: seq<Joined>, rows: seq<FoundRow>)
    requires search.limit >= 1 && BindsSearch(search, params)
    requires PostgresReturns(sqrt, TextFilters(search), params, OneRowTable(search, embedding), order, rows)
    ensures order == OneRowTable(search, embedding)
  {
    OneRowRanked(sqrt, search, embedding);
    SelectedAreEligible(search, TextFilters(search), params, OneRowTable(search, embedding));
    OnlyPermutation(order, OneRowTable(search, embedding));
  }

  /** The statement has a result for that table. */
  lemma OneRowAnswer(sqrt: real -> real, search: Search, embedding: Vector)
    returns (params: Params, order: seq<Joined>, rows: seq<FoundRow>)
    requires search.limit >= 1 && |embedding| == |search.query| && Rounded(embedding) == embedding
    ensures BindsSearch(search, params) && CastQuery(params) == Rounded(search.query)
    ensures PostgresReturns(sqrt, TextFilters(search), params, OneRowTable(search, embedding), order, rows)
  {
    params := ParamsExist(search);
    OneRowRanked(sqrt, search, embedding);
    CastQueryIsRounded(search, params);
    order, rows := DatabaseAnswers(sqrt, TextFilters(search), params, OneRowTable(search, embedding));
  }

  /** What the database returns for that table. */
  lemma OneRowFound(sqrt: real -> real, search: Search, embedding: Vector)
    returns (params: Params, order: seq<Joined>, rows: seq<FoundRow>)
    requires search.limit >= 1 && |embedding| == |search.query| && Rounded(embedding) == embedding
    ensures BindsSearch(search, params)
    ensures PostgresReturns(
      sqrt, TextFilters(search), params, OneRowTable(search, embedding), order, rows)
    ensures FoundScores(rows) == [ScoreAt(CosineDistance(sqrt, embedding, Rounded(search.query)))]
  {
    params, order, rows := OneRowAnswer(sqrt, search, embedding);
    OneRowOrder(sqrt, search, embedding, params, order, rows);
    OneFound(sqrt, Rounded(search.query), order, search.limit);
    RoundTrip(embedding);
  }

  lemma OneFound(sqrt: real -> real, query: Vector, joined: seq<Joined>, limit: nat)
    requires limit >= 1 && |joined| == 1
    ensures FoundScores(Slice(Map(PostgresRow(sqrt, query), joined), limit)) == [PostgresRow(sqrt, query)(joined[0]).score]
  {
    var row := PostgresRow(sqrt, query)(joined[0]);
    assert Map(PostgresRow(sqrt, query), joined) == [row];
    assert Slice([row], limit) == [row];
  }

  lemma OnlyPermutation<T>(a: seq<T>, b: seq<T>)
    requires multiset(a) == multiset(b) && |b| == 1
    ensures a == b
  {
    assert |multiset(a)| == |a|;
    MemberOfPermutation(a, b, 0);
  }

  lemma SameDirectionRanksAlike(sqrt: real -> real, search: Search, joined: seq<Joined>)
    requires Cosine.IsSquareRoot(sqrt)
    requires Cosine.SameDirection(search.query, Rounded(search.query))
    ensures Ranked(sqrt, search, joined) == Ranked(sqrt, WithRoundedQuery(search), joined)
  {
    var s :| s > 0.0 && Rounded(search.query) == Cosine.Scale(s, search.query);
    var rounded := WithRoundedQuery(search);
    SameEligibleRows(search, rounded, joined);
    var rows := EligibleRows(search, joined);
    forall i | 0 <= i < |rows|
      ensures Candidates(sqrt, search, joined)[i] == Candidates(sqrt, rounded, joined)[i]
    {
      Cosine.ScoreIgnoresScale(sqrt, s, search.query, EmbeddingOf(rows[i]));
    }
    assert Candidates(sqrt, search, joined) == Candidates(sqrt, rounded, joined);
  }

  /** With a direction that survives rounding, the searches agree on every table. */
  lemma SameDirectionAgrees(sqrt: real -> real, search: Search, joined: seq<Joined>)
    requires Cosine.IsSquareRoot(sqrt) && search.limit >= 0 && Indexed(search, joined)
    requires Cosine.SameDirection(search.query, Rounded(search.query)) && !Cosine.IsZero(search.query)
    ensures AgreeOn(sqrt, search, joined)
  {
    var s :| s > 0.0 && Rounded(search.query) == Cosine.Scale(s, search.query);
    Cosine.ScaleKeepsZero(s, search.query);
    SameDirectionRanksAlike(sqrt, search, joined);
    forall params, order, rows |
      BindsSearch(search, params) && PostgresReturns(sqrt, TextFilters(search), params, joined, order, rows)
      ensures FoundScores(rows) == Numbers(Scores(Ranked(sqrt, search, joined)))
    {
      SearchesAgree(sqrt, search, TextFilters(search), params, joined, order, rows);
    }
  }

  /** Two score sequences of one row that differ. */
  lemma OneRowDiffers(sqrt: real -> real, search: Search, embedding: Vector, score: Option<real>)
    requires search.limit >= 1 && |embedding| == |search.query| && Rounded(embedding) == embedding
    requires score == ScoreAt(CosineDistance(sqrt, embedding, Rounded(search.query)))
    requires score != Some(Cosine.CosineSimilarity(sqrt, search.query, embedding))
    ensures !AgreeOn(sqrt, search, OneRowTable(search, embedding))
  {
    var joined := OneRowTable(search, embedding);
    OneRowRanked(sqrt, search, embedding);
    var params, order, rows := OneRowFound(sqrt, search, embedding);
    OneScoreDiffers(score, Cosine.CosineSimilarity(sqrt, search.query, embedding));
    Disagree(sqrt, search, joined, params, order, rows);
  }

  lemma OneScoreDiffers(found: Option<real>, score: real)
    requires found != Some(score)
    ensures [found] != Numbers([score])
  {
    assert Numbers([score])[0] == Some(score);
  }

  lemma Disagree(
    sqrt: real -> real, search: Search, joined: seq<Joined>, params: Params, order: seq<Joined>, rows: seq<FoundRow>)
    requires search.limit >= 0 && BindsSearch(search, params)
    requires PostgresReturns(sqrt, TextFilters(search), params, joined, order, rows)
    requires FoundScores(rows) != Numbers(Scores(Ranked(sqrt, search, joined)))
    ensures !AgreeOn(sqrt, search, joined)
  {
  }

  /** With a direction that rounding destroys, they disagree on a table of one row. */
  lemma LostDirectionDisagrees(sqrt: real -> real, search: Search)
    requires Cosine.IsSquareRoot(sqrt) && search.limit >= 1 && search.query != []
    requires Cosine.IsZero(Rounded(search.query))
    ensures !AgreeOn(sqrt, search, OneRowTable(search, Cosine.Axis(|search.query|, 0)))
  {
    var embedding := Cosine.Axis(|search.query|, 0);
    UnitVectorIsRounded(|search.query|);
    ZeroDistanceIsNaN(sqrt, embedding, Rounded(search.query));
    OneRowDiffers(sqrt, search, embedding, None);
  }

  /** So they do with one that rounding turns. */
  lemma TurnedDirectionDisagrees(sqrt: real -> real, search: Search)
    requires Cosine.IsSquareRoot(sqrt) && search.limit >= 1 && search.query != []
    requires !Cosine.IsZero(Rounded(search.query)) && !Cosine.SameDirection(search.query, Rounded(search.query))
    ensures !AgreeOn(sqrt, search, OneRowTable(search, Rounded(search.query)))
  {
    var rounded := Rounded(search.query);
    RoundedIsStable(search.query);
    DistanceIsCosine(sqrt, rounded, rounded);
    Cosine.ScoreOfSelf(sqrt, rounded);
    OnlyOwnDirectionScoresOne(sqrt, search.query, rounded);
    OneRowDiffers(sqrt, search, rounded, Some(1.0));
  }

  lemma OnlyOwnDirectionScoresOne(sqrt: real -> real, a: Vector, b: Vector)
    requires Cosine.IsSquareRoot(sqrt) && |a| == |b| && !Cosine.IsZero(b) && !Cosine.SameDirection(a, b)
    ensures Cosine.CosineSimilarity(sqrt, a, b) != 1.0
  {
    Cosine.ScoreIsQuotient(sqrt, a, b);
    if !Cosine.IsZero(a) {
      Cosine.ScoreOneIsSameDirection(sqrt, a, b);
    }
  }

  lemma UnitVectorIsRounded(n: nat)
    requires n > 0
    ensures Rounded(Cosine.Axis(n, 0)) == Cosine.Axis(n, 0) && !Cosine.IsZero(Cosine.Axis(n, 0))
  {
    var v := Cosine.Axis(n, 0);
    assert GridPoint(SCALE) == 1.0 && GridPoint(0) == 0.0;
    forall i | 0 <= i < n
      ensures Rounded(v)[i] == v[i]
    {
      NearestIsExactOnGrid(v[i]);
    }
    assert v[0] == 1.0;
  }

  /**
   The program's and the database's scores agree on every table of non-zero embeddings of
   the query's dimension, whatever the database picks among equal distances, exactly when
   the query is not zero and rounding it to eight places keeps its direction.
   */
  lemma RoundingMattersExactlyWhenItTurns(sqrt: real -> real, search: Search)
    requires Cosine.IsSquareRoot(sqrt) && search.limit >= 1 && search.query != []
    ensures (forall joined :: Indexed(search, joined) ==> AgreeOn(sqrt, search, joined))
      <==> !Cosine.IsZero(search.query) && Cosine.SameDirection(search.query, Rounded(search.query))
  {
    if !Cosine.IsZero(search.query) && Cosine.SameDirection(search.query, Rounded(search.query)) {
      forall joined | Indexed(search, joined)
        ensures AgreeOn(sqrt, search, joined)
      {
        SameDirectionAgrees(sqrt, search, joined);
      }
    } else {
      var joined := DisagreeingTable(sqrt, search);
    }
  }

  lemma OneRowIndexed(search: Search, embedding: Vector)
    requires |embedding| == |search.query| && Rounded(embedding) == embedding && !Cosine.IsZero(embedding)
    ensures Indexed(search, OneRowTable(search, embedding))
  {
    RoundTrip(embedding);
  }

  lemma DisagreeingTable(sqrt: real -> real, search: Search) returns (joined: seq<Joined>)
    requires Cosine.IsSquareRoot(sqrt) && search.limit >= 1 && search.query != []
    requires Cosine.IsZero(search.query) || !Cosine.SameDirection(search.query, Rounded(search.query))
    ensures Indexed(search, joined) && !AgreeOn(sqrt, search, joined)
  {
    var rounded := Rounded(search.query);
    if Cosine.IsZero(rounded) {
      var unit := Cosine.Axis(|search.query|, 0);
      joined := OneRowTable(search, unit);
      UnitVectorIsRounded(|search.query|);
      OneRowIndexed(search, unit);
      LostDirectionDisagrees(sqrt, search);
    } else {
      if Cosine.IsZero(search.query) {
        RoundedZero(search.query);
      }
      joined := OneRowTable(search, rounded);
      RoundedIsStable(search.query);
      OneRowIndexed(search, rounded);
      TurnedDirectionDisagrees(sqrt, search);
    }
  }

  lemma RoundedZero(query: Vector)
    requires Cosine.IsZero(query)
    ensures Cosine.IsZero(Rounded(query))
  {
    assert GridPoint(0) == 0.0;
    forall i | 0 <= i < |query|
      ensures Rounded(query)[i] == 0.0
    {
      NearestIsExactOnGrid(query[i]);
    }
  }

  /** Such queries exist: rounding turns (0.4e-8, 1), so the two searches score it differently. */
  lemma RoundingCanTurn(query: Vector)
    requires query == [0.000000004, 1.0]
    ensures !Cosine.IsZero(query) && !Cosine.IsZero(Rounded(query))
    ensures !Cosine.SameDirection(query, Rounded(query))
  {
    assert query[1] == 1.0;
    assert Units(query[0]) == 0;
    NearestIsExactOnGrid(1.0);
    assert 1.0 == GridPoint(SCALE);
    assert Rounded(query)[0] == 0.0;
    assert Rounded(query)[1] == 1.0;
    forall s: real | s > 0.0
      ensures Rounded(query) != Cosine.Scale(s, query)
    {
      Cosine.ScaleEntry(s, query, 0);
    }
  }
}
