/** Fuzzy ranking of rows (`src/tui/panel.rs`). The nucleo matcher is foreign:
    it is any function from a field and a query to an optional score. Scores are
    reals, so they are totally ordered (the program uses `f64` without NaN). */
module Ranking {
  import opened Prelude
  import Sort = StableSort

  type Matcher = (string, string) -> Option<nat>

  /** What decides the place of a row, apart from its original position. */
  datatype RankKey = RankKey(matched: nat, score: real, name: Option<string>)

  predicate KeyBefore(a: RankKey, b: RankKey) {
    || a.matched > b.matched
    || (a.matched == b.matched
        && (a.score > b.score || (a.score == b.score && NameLess(a.name, b.name))))
  }

  lemma KeyBeforeIsStrictTotal()
    ensures Sort.StrictTotal(KeyBefore)
  {
    forall a: RankKey ensures !KeyBefore(a, a) {
      if a.name.Some? { LexIrreflexive(a.name.value); }
    }
    forall a: RankKey, b: RankKey, c: RankKey | KeyBefore(a, b) && KeyBefore(b, c)
      ensures KeyBefore(a, c)
    {
      if a.name.Some? && b.name.Some? && c.name.Some?
         && LexLess(a.name.value, b.name.value) && LexLess(b.name.value, c.name.value) {
        LexTransitive(a.name.value, b.name.value, c.name.value);
      }
    }
    forall a: RankKey, b: RankKey
      ensures a == b || KeyBefore(a, b) || KeyBefore(b, a)
    {
      if a.name.Some? && b.name.Some? { LexTotal(a.name.value, b.name.value); }
    }
  }

  // ---- scoring one row ----

  function MaxScore(a: Option<nat>, b: Option<nat>): Option<nat> {
    if a.None? then b
    else if b.None? then a
    else if a.value < b.value then b
    else a
  }

  /** The best score of any single field; `None` when no field matches. */
  function BestFieldScore(m: Matcher, fields: seq<string>, query: string): (r: Option<nat>)
    ensures r.Some? <==> exists f :: f in fields && m(f, query).Some?
    ensures r.Some? ==> exists f :: f in fields && m(f, query) == r
    ensures r.Some? ==> forall f | f in fields && m(f, query).Some? :: m(f, query).value <= r.value
  {
    if fields == [] then None
    else
      assert fields == [fields[0]] + fields[1..];
      MaxScore(m(fields[0], query), BestFieldScore(m, fields[1..], query))
  }

  function First(row: seq<string>): Option<string> {
    if row == [] then None else Some(row[0])
  }

  /** A row survives the filter when the query is empty or some field matches. */
  predicate Kept(m: Matcher, row: seq<string>, query: string) {
    query == "" || BestFieldScore(m, row, query).Some?
  }

  /** The empty-query branch never consults the matcher: all rows score alike. */
  function RowKey(m: Matcher, row: seq<string>, score: real, query: string): RankKey {
    RankKey(if query == "" then 0
        else match BestFieldScore(m, row, query) case Some(v) => v case None => 0,
        score, First(row))
  }

  function Keys(m: Matcher, rows: seq<seq<string>>, scores: seq<real>, query: string): (r: seq<RankKey>)
    requires |rows| == |scores|
    ensures |r| == |rows|
  {
    seq(|rows|, i requires 0 <= i < |rows| => RowKey(m, rows[i], scores[i], query))
  }

  /** The surviving rows among the first `n`, ascending. */
  function KeptRows(m: Matcher, rows: seq<seq<string>>, query: string, n: nat): (r: seq<nat>)
    requires n <= |rows|
    ensures Sort.Within(r, n)
    ensures forall a, b | 0 <= a < b < |r| :: r[a] < r[b]
    ensures forall i :: i in r <==> 0 <= i < n && Kept(m, rows[i], query)
  {
    if n == 0 then []
    else
      var init := KeptRows(m, rows, query, n - 1);
      if Kept(m, rows[n - 1], query) then init + [n - 1] else init
  }

  /** Display order of `rows` under `query`: the value `RankByFields` returns. */
  function Rank(m: Matcher, rows: seq<seq<string>>, scores: seq<real>, query: string): (r: seq<nat>)
    requires |rows| == |scores|
  {
    Sort.SortBy(Keys(m, rows, scores, query), KeyBefore, KeptRows(m, rows, query, |rows|))
  }

  /** The filter pass of `rank_by_fields`. */
  method CollectKept(m: Matcher, rows: seq<seq<string>>, query: string) returns (idx: seq<nat>)
    ensures idx == KeptRows(m, rows, query, |rows|)
  {
    idx := [];
    for i := 0 to |rows|
      invariant idx == KeptRows(m, rows, query, i)
    {
      if query == "" {
        idx := idx + [i];
      } else {
        var s := BestFieldScore(m, rows[i], query);
        if s.Some? {
          idx := idx + [i];
        }
      }
    }
  }

  /** `rank_by_fields`: collect the surviving indices, then sort them in place. */
  method RankByFields(m: Matcher, rows: seq<seq<string>>, scores: seq<real>, query: string)
    returns (order: seq<nat>)
    requires |rows| == |scores|
    ensures order == Rank(m, rows, scores, query)
  {
    hide Keys, KeptRows;
    var idx := CollectKept(m, rows, query);
    var a := new nat[|idx|](k requires 0 <= k < |idx| => idx[k]);
    assert a[..] == idx;
    Sort.SortInPlace(a, Keys(m, rows, scores, query), KeyBefore);
    order := a[..];
  }

  // ---- what the ranking is ----

  /** How well a row matches: its best field, or nothing to tell apart without a
      query. */
  function MatchOf(m: Matcher, row: seq<string>, query: string): nat {
    var best := BestFieldScore(m, row, query);
    if query != "" && best.Some? then best.value else 0
  }

  /** Row `i` is shown above row `j`: better match, else higher score, else
      smaller name, else earlier in the list. */
  ghost predicate Outranks(m: Matcher, rows: seq<seq<string>>, scores: seq<real>, query: string, i: nat, j: nat)
    requires |rows| == |scores|
  {
    && i < |rows| && j < |rows|
    && var a, b := MatchOf(m, rows[i], query), MatchOf(m, rows[j], query);
    || a > b
    || (a == b && scores[i] > scores[j])
    || (a == b && scores[i] == scores[j] && SmallerName(rows[i], rows[j]))
    || (a == b && scores[i] == scores[j] && SameName(rows[i], rows[j]) && i < j)
  }

  /** The name of a row is its first field; a row without fields comes first. */
  predicate SmallerName(a: seq<string>, b: seq<string>) {
    b != [] && (a == [] || LexLess(a[0], b[0]))
  }

  predicate SameName(a: seq<string>, b: seq<string>) {
    if a == [] then b == [] else b != [] && a[0] == b[0]
  }

  /** The promise of the ranking: exactly the surviving rows, each once, in
      display order. */
  ghost predicate IsRanking(m: Matcher, rows: seq<seq<string>>, scores: seq<real>, query: string, order: seq<nat>)
    requires |rows| == |scores|
  {
    && (forall i :: i in order <==>
          0 <= i < |rows| && (query == "" || exists f :: f in rows[i] && m(f, query).Some?))
    && (forall a, b | 0 <= a < b < |order| :: order[a] != order[b])
    && (forall a, b | 0 <= a < b < |order| :: Outranks(m, rows, scores, query, order[a], order[b]))
  }

  lemma RankOrdered(m: Matcher, rows: seq<seq<string>>, scores: seq<real>, query: string)
    requires |rows| == |scores|
    ensures Sort.Ordered(Keys(m, rows, scores, query), KeyBefore, Rank(m, rows, scores, query))
    ensures forall i :: i in Rank(m, rows, scores, query) <==> 0 <= i < |rows| && Kept(m, rows[i], query)
  {
    hide Keys;
    KeyBeforeIsStrictTotal();
    var kept := KeptRows(m, rows, query, |rows|);
    Sort.SortByOrdered(Keys(m, rows, scores, query), KeyBefore, kept);
    forall i
      ensures i in Rank(m, rows, scores, query) <==> i in kept
    {
      assert i in Rank(m, rows, scores, query) <==> i in multiset(kept);
    }
  }

  lemma RankLength(m: Matcher, rows: seq<seq<string>>, scores: seq<real>, query: string)
    requires |rows| == |scores|
    ensures |Rank(m, rows, scores, query)| == |KeptRows(m, rows, query, |rows|)|
  {
    hide Keys;
    KeyBeforeIsStrictTotal();
    var kept := KeptRows(m, rows, query, |rows|);
    Sort.SortByOrdered(Keys(m, rows, scores, query), KeyBefore, kept);
    assert |multiset(Rank(m, rows, scores, query))| == |multiset(kept)|;
  }

  /** Above is before in the sort, by match, score, name and position. */
  lemma AboveIsBefore(m: Matcher, rows: seq<seq<string>>, scores: seq<real>, query: string, i: nat, j: nat)
    requires |rows| == |scores| && i < |rows| && j < |rows|
    ensures Outranks(m, rows, scores, query, i, j) <==> Sort.Precedes(Keys(m, rows, scores, query), KeyBefore, i, j)
    ensures Outranks(m, rows, scores, query, i, j) ==> i != j
  {
    hide BestFieldScore, LexLess;
    SmallerIsNameLess(rows[i], rows[j]);
    SameMatch(m, rows[i], scores[i], query);
    SameMatch(m, rows[j], scores[j], query);
    hide RowKey, MatchOf, SmallerName, SameName;
    if First(rows[i]).Some? { LexIrreflexive(First(rows[i]).value); }
  }

  lemma SameMatch(m: Matcher, row: seq<string>, score: real, query: string)
    ensures RowKey(m, row, score, query) == RankKey(MatchOf(m, row, query), score, First(row))
  {
    hide BestFieldScore;
  }

  lemma SmallerIsNameLess(a: seq<string>, b: seq<string>)
    ensures SmallerName(a, b) <==> NameLess(First(a), First(b))
    ensures SameName(a, b) <==> First(a) == First(b)
  {
    hide LexLess;
  }

  /** The ranking keeps its promise, and nothing else does. */
  lemma RankIsTheRanking(m: Matcher, rows: seq<seq<string>>, scores: seq<real>, query: string, order: seq<nat>)
    requires |rows| == |scores|
    ensures IsRanking(m, rows, scores, query, order) <==> order == Rank(m, rows, scores, query)
  {
    hide Outranks, BestFieldScore, Keys, Rank, Sort.Precedes;
    var keys, r := Keys(m, rows, scores, query), Rank(m, rows, scores, query);
    RankOrdered(m, rows, scores, query);
    KeyBeforeIsStrictTotal();
    forall i: nat, j: nat | i < |rows| && j < |rows|
      ensures Outranks(m, rows, scores, query, i, j) <==> Sort.Precedes(keys, KeyBefore, i, j)
      ensures Outranks(m, rows, scores, query, i, j) ==> i != j
    {
      AboveIsBefore(m, rows, scores, query, i, j);
    }
    assert forall k | 0 <= k < |r| :: r[k] in r;
    assert IsRanking(m, rows, scores, query, r);
    if IsRanking(m, rows, scores, query, order) {
      assert forall k | 0 <= k < |order| :: order[k] in order;
      assert Sort.Ordered(keys, KeyBefore, order);
      Sort.OrderedUnique(keys, KeyBefore, order, r);
    }
  }

  /** Under the empty query every row is shown exactly once. */
  lemma EmptyQueryShowsAll(m: Matcher, rows: seq<seq<string>>, scores: seq<real>)
    requires |rows| == |scores|
    ensures forall i: nat :: i in Rank(m, rows, scores, "") <==> i < |rows|
    ensures |Rank(m, rows, scores, "")| == |rows|
  {
    RankOrdered(m, rows, scores, "");
    AllKept(m, rows, |rows|);
  }

  lemma {:induction false} AllKept(m: Matcher, rows: seq<seq<string>>, n: nat)
    requires n <= |rows|
    ensures |KeptRows(m, rows, "", n)| == n
  {
    if n > 0 {
      AllKept(m, rows, n - 1);
    }
  }

  /** Indices shown are valid and distinct, so the list can be indexed by them. */
  lemma RankValid(m: Matcher, rows: seq<seq<string>>, scores: seq<real>, query: string)
    requires |rows| == |scores|
    ensures Sort.Within(Rank(m, rows, scores, query), |rows|)
    ensures forall a, b | 0 <= a < b < |Rank(m, rows, scores, query)| ::
              Rank(m, rows, scores, query)[a] != Rank(m, rows, scores, query)[b]
  {
    RankIsTheRanking(m, rows, scores, query, Rank(m, rows, scores, query));
    var r := Rank(m, rows, scores, query);
    forall k | 0 <= k < |r| ensures r[k] < |rows| {
      assert r[k] in r;
    }
  }

  /** A matcher that gives every field the same score. */
  function Indifferent(c: nat): Matcher {
    (field: string, query: string) => Some(c)
  }

  lemma IndifferentMatch(c: nat, row: seq<string>, query: string)
    requires query != ""
    ensures Kept(Indifferent(c), row, query) <==> row != []
    ensures row != [] ==> BestFieldScore(Indifferent(c), row, query) == Some(c)
  {
    if row != [] {
      assert row[0] in row && Indifferent(c)(row[0], query).Some?;
    }
  }

  /** The empty-query branch is the general branch under an indifferent matcher
      exactly when every row has at least one field to match. */
  lemma EmptyQueryIsIndifferentMatch(m: Matcher, rows: seq<seq<string>>, scores: seq<real>, query: string, c: nat)
    requires |rows| == |scores| && query != ""
    ensures Rank(m, rows, scores, "") == Rank(Indifferent(c), rows, scores, query)
            <==> forall i | 0 <= i < |rows| :: rows[i] != []
  {
    hide Rank, Outranks;
    var plain, general := Rank(m, rows, scores, ""), Rank(Indifferent(c), rows, scores, query);
    if forall i | 0 <= i < |rows| :: rows[i] != [] {
      RankIsTheRanking(m, rows, scores, "", plain);
      forall i | 0 <= i < |rows| ensures exists f :: f in rows[i] && Indifferent(c)(f, query).Some? {
        assert rows[i][0] in rows[i];
      }
      forall i: nat, j: nat | Outranks(m, rows, scores, "", i, j)
        ensures Outranks(Indifferent(c), rows, scores, query, i, j)
      {
        SameOutranks(m, rows, scores, query, c, i, j);
      }
      assert forall i | i in plain :: 0 <= i < |rows| && exists f :: f in rows[i] && Indifferent(c)(f, query).Some?;
      assert forall i: nat | i < |rows| :: i in plain;
      assert forall a, b | 0 <= a < b < |plain| :: Outranks(Indifferent(c), rows, scores, query, plain[a], plain[b]);
      assert IsRanking(Indifferent(c), rows, scores, query, plain);
      RankIsTheRanking(Indifferent(c), rows, scores, query, plain);
    } else {
      var i :| 0 <= i < |rows| && rows[i] == [];
      RankOrdered(m, rows, scores, "");
      RankOrdered(Indifferent(c), rows, scores, query);
      IndifferentMatch(c, rows[i], query);
      assert i in plain && i !in general;
    }
  }

  lemma SameOutranks(m: Matcher, rows: seq<seq<string>>, scores: seq<real>, query: string, c: nat, i: nat, j: nat)
    requires |rows| == |scores| && query != "" && forall k | 0 <= k < |rows| :: rows[k] != []
    requires Outranks(m, rows, scores, "", i, j)
    ensures Outranks(Indifferent(c), rows, scores, query, i, j)
  {
    hide SmallerName, SameName, BestFieldScore;
    IndifferentMatch(c, rows[i], query);
    IndifferentMatch(c, rows[j], query);
  }
}
