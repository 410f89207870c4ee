/**
 Listing predictions: newest first, filtered and cut into pages (list_paginated and list_recent of
 tests/fakes/prediction_repo.py and repositories/prediction_repo.py), and the loop that drains the
 pages (scripts/benchmark_latency.py).
 */
module Listing {
  import opened Prelude
  import opened Paths
  import opened Database
  import S = Services
  import T = Tables
  import Uuid

  // ---------------------------------------------------------------------------
  // A stable sort
  // ---------------------------------------------------------------------------

  /** Into a sorted list, ahead of everything that is not newer. */
  function Insert(row: Prediction, sorted: seq<Prediction>): seq<Prediction> {
    if sorted == [] || sorted[0].createdAt <= row.createdAt then [row] + sorted
    else [sorted[0]] + Insert(row, sorted[1..])
  }

  /** `sorted(rows, key=created_at, reverse=True)`. */
  function NewestFirst(rows: seq<Prediction>): seq<Prediction> {
    if rows == [] then [] else Insert(rows[0], NewestFirst(rows[1..]))
  }

  predicate Descending(rows: seq<Prediction>) {
    forall i, j :: 0 <= i < j < |rows| ==> rows[i].createdAt >= rows[j].createdAt
  }

  /** The rows that satisfy a condition, in order. */
  function Filter(rows: seq<Prediction>, keep: Prediction -> bool): seq<Prediction> {
    if rows == [] then []
    else if keep(rows[0]) then [rows[0]] + Filter(rows[1..], keep)
    else Filter(rows[1..], keep)
  }

  /** The rows of one moment, in order. */
  function Of(rows: seq<Prediction>, time: nat): seq<Prediction> {
    Filter(rows, (row: Prediction) => row.createdAt == time)
  }

  predicate NotAfter(rows: seq<Prediction>, time: nat) {
    forall i :: 0 <= i < |rows| ==> rows[i].createdAt <= time
  }

  lemma {:induction false} InsertNotAfter(row: Prediction, sorted: seq<Prediction>, time: nat)
    requires NotAfter(sorted, time) && row.createdAt <= time
    ensures NotAfter(Insert(row, sorted), time)
  {
    if sorted != [] && sorted[0].createdAt > row.createdAt {
      InsertNotAfter(row, sorted[1..], time);
    }
  }

  lemma {:induction false} InsertDescending(row: Prediction, sorted: seq<Prediction>)
    requires Descending(sorted)
    ensures Descending(Insert(row, sorted))
  {
    if sorted != [] && sorted[0].createdAt > row.createdAt {
      InsertDescending(row, sorted[1..]);
      InsertNotAfter(row, sorted[1..], sorted[0].createdAt);
    }
  }

  lemma {:induction false} InsertAdds(row: Prediction, sorted: seq<Prediction>)
    ensures multiset(Insert(row, sorted)) == multiset(sorted) + multiset{row}
  {
    if sorted != [] && sorted[0].createdAt > row.createdAt {
      InsertAdds(row, sorted[1..]);
      assert sorted == [sorted[0]] + sorted[1..];
    }
  }

  lemma {:induction false} InsertFiltered(row: Prediction, sorted: seq<Prediction>, keep: Prediction -> bool)
    requires Descending(sorted)
    ensures Filter(Insert(row, sorted), keep)
            == if keep(row) then Insert(row, Filter(sorted, keep)) else Filter(sorted, keep)
  {
    if sorted == [] {
    } else if sorted[0].createdAt <= row.createdAt {
      assert ([row] + sorted)[1..] == sorted;
      FilteredBelow(sorted, keep, row.createdAt);
    } else {
      InsertFiltered(row, sorted[1..], keep);
      assert Insert(row, sorted)[1..] == Insert(row, sorted[1..]);
    }
  }

  lemma {:induction false} FilteredBelow(rows: seq<Prediction>, keep: Prediction -> bool, time: nat)
    requires NotAfter(rows, time)
    ensures NotAfter(Filter(rows, keep), time)
  {
    if rows != [] {
      FilteredBelow(rows[1..], keep, time);
    }
  }

  /** The sort yields a descending rearrangement. */
  lemma {:induction false} SortSorts(rows: seq<Prediction>)
    ensures Descending(NewestFirst(rows)) && multiset(NewestFirst(rows)) == multiset(rows)
  {
    if rows != [] {
      SortSorts(rows[1..]);
      InsertDescending(rows[0], NewestFirst(rows[1..]));
      InsertAdds(rows[0], NewestFirst(rows[1..]));
      assert rows == [rows[0]] + rows[1..];
    }
  }

  /** Sorting and then filtering, as the fake does, is filtering and then sorting, as the query does. */
  lemma {:induction false} FilterCommutes(rows: seq<Prediction>, keep: Prediction -> bool)
    ensures Filter(NewestFirst(rows), keep) == NewestFirst(Filter(rows, keep))
  {
    if rows != [] {
      FilterCommutes(rows[1..], keep);
      SortSorts(rows[1..]);
      InsertFiltered(rows[0], NewestFirst(rows[1..]), keep);
      if keep(rows[0]) {
        assert ([rows[0]] + Filter(rows[1..], keep))[1..] == Filter(rows[1..], keep);
      }
    }
  }

  lemma {:induction false} SortOfOneMoment(rows: seq<Prediction>, time: nat)
    requires forall i :: 0 <= i < |rows| ==> rows[i].createdAt == time
    ensures NewestFirst(rows) == rows
  {
    if rows != [] {
      SortOfOneMoment(rows[1..], time);
    }
  }

  lemma {:induction false} FilteredAll(rows: seq<Prediction>, keep: Prediction -> bool)
    ensures forall i :: 0 <= i < |Filter(rows, keep)| ==> keep(Filter(rows, keep)[i])
  {
    if rows != [] {
      FilteredAll(rows[1..], keep);
    }
  }

  /** The sort is stable: rows of the same moment keep their order. */
  lemma SortIsStable(rows: seq<Prediction>, time: nat)
    ensures Of(NewestFirst(rows), time) == Of(rows, time)
  {
    FilterCommutes(rows, (row: Prediction) => row.createdAt == time);
    FilteredAll(rows, (row: Prediction) => row.createdAt == time);
    SortOfOneMoment(Of(rows, time), time);
  }

  lemma {:induction false} FirstOf(rows: seq<Prediction>)
    requires |rows| > 0
    ensures Of(rows, rows[0].createdAt) == [rows[0]] + Of(rows[1..], rows[0].createdAt)
  {
  }

  lemma NotEmpty(a: seq<Prediction>, b: seq<Prediction>)
    requires a != [] && forall time :: Of(a, time) == Of(b, time)
    ensures b != []
  {
    FirstOf(a);
  }

  lemma {:induction false} OfOthers(rows: seq<Prediction>, time: nat)
    requires forall i :: 0 <= i < |rows| ==> rows[i].createdAt != time
    ensures Of(rows, time) == []
  {
    if rows != [] {
      OfOthers(rows[1..], time);
    }
  }

  /**
   There is only one stable newest-first order: a descending list with the same rows at each moment,
   in the same order, is the sorted one.
   */
  lemma {:induction false} StableOrderIsUnique(a: seq<Prediction>, b: seq<Prediction>)
    requires Descending(a) && Descending(b)
    requires forall time :: Of(a, time) == Of(b, time)
    ensures a == b
  {
    if a == [] || b == [] {
      if a != [] { NotEmpty(a, b); }
      if b != [] { NotEmpty(b, a); }
    } else {
      if a[0].createdAt > b[0].createdAt {
        FirstOf(a);
        OfOthers(b, a[0].createdAt);
      } else if b[0].createdAt > a[0].createdAt {
        FirstOf(b);
        OfOthers(a, b[0].createdAt);
      }
      var t := a[0].createdAt;
      FirstOf(a);
      FirstOf(b);
      assert Of(a, t)[0] == a[0] && Of(b, t)[0] == b[0];
      forall time
        ensures Of(a[1..], time) == Of(b[1..], time)
      {
        assert Of(a, time) == Of(b, time);
        if time == t {
          assert Of(a, t)[1..] == Of(a[1..], t) && Of(b, t)[1..] == Of(b[1..], t);
        }
      }
      StableOrderIsUnique(a[1..], b[1..]);
      assert a == [a[0]] + a[1..] && b == [b[0]] + b[1..];
    }
  }

  predicate DistinctMoments(rows: seq<Prediction>) {
    forall i, j :: 0 <= i < j < |rows| ==> rows[i].createdAt != rows[j].createdAt
  }

  lemma SameFirst(answer: seq<Prediction>, sorted: seq<Prediction>)
    requires Descending(answer) && Descending(sorted) && multiset(answer) == multiset(sorted)
    requires DistinctMoments(sorted) && sorted != []
    ensures answer != [] && answer[0] == sorted[0]
  {
    assert sorted[0] in multiset(answer);
    var m :| 0 <= m < |answer| && answer[m] == sorted[0];
    assert answer[0] in multiset(sorted);
    var k :| 0 <= k < |sorted| && sorted[k] == answer[0];
  }

  /**
   ORDER BY created_at DESC leaves the order of ties to the database. Without ties any answer the
   database may give is the sorted list.
   */
  lemma {:induction false} QueryOrderIsUnique(answer: seq<Prediction>, sorted: seq<Prediction>)
    requires Descending(answer) && Descending(sorted) && multiset(answer) == multiset(sorted)
    requires DistinctMoments(sorted)
    ensures answer == sorted
  {
    if sorted == [] {
      assert |multiset(answer)| == 0;
    } else {
      SameFirst(answer, sorted);
      TailMultiset(answer);
      TailMultiset(sorted);
      QueryOrderIsUnique(answer[1..], sorted[1..]);
    }
  }

  lemma {:induction false} InsertOldest(row: Prediction, sorted: seq<Prediction>)
    requires forall i :: 0 <= i < |sorted| ==> sorted[i].createdAt > row.createdAt
    ensures Insert(row, sorted) == sorted + [row]
  {
    if sorted != [] {
      InsertOldest(row, sorted[1..]);
    }
  }

  /** Rows that came one after the other are listed the other way round. */
  lemma {:induction false} LatestFirst(rows: seq<Prediction>)
    requires forall i, j :: 0 <= i < j < |rows| ==> rows[i].createdAt < rows[j].createdAt
    ensures |NewestFirst(rows)| == |rows|
    ensures forall k :: 0 <= k < |rows| ==> NewestFirst(rows)[k] == rows[|rows| - 1 - k]
  {
    if rows != [] {
      LatestFirst(rows[1..]);
      InsertOldest(rows[0], NewestFirst(rows[1..]));
    }
  }

  // ---------------------------------------------------------------------------
  // Pages
  // ---------------------------------------------------------------------------

  /** `label_filter` and `color_filter`: None asks for everything. */
  predicate Wanted(row: Prediction, category: Option<Label>, color: Option<string>) {
    && (category.Some? ==> row.category == category.value)
    && (color.Some? ==> row.color == color)
  }

  function Selected(rows: seq<Prediction>, category: Option<Label>, color: Option<string>): seq<Prediction> {
    Filter(rows, (row: Prediction) => Wanted(row, category, color))
  }

  /** `items[start : start + limit]`. */
  function Slice<T>(items: seq<T>, start: nat, limit: nat): (r: seq<T>)
    ensures |r| <= limit
  {
    if start >= |items| then []
    else if start + limit >= |items| then items[start..]
    else items[start..start + limit]
  }

  /** `list_paginated` as the fake repository computes it: sort, filter by label, filter by colour, cut. */
  function ListPaginated(rows: seq<Prediction>, page: nat, limit: nat, category: Option<Label>, color: Option<string>):
    seq<Prediction>
    requires page >= 1
  {
    var items := NewestFirst(rows);
    var byLabel := Filter(items, (row: Prediction) => category.Some? ==> row.category == category.value);
    var byColor := Filter(byLabel, (row: Prediction) => color.Some? ==> row.color == color);
    Slice(byColor, (page - 1) * limit, limit)
  }

  /** `list_recent`. */
  function ListRecent(rows: seq<Prediction>, limit: nat): seq<Prediction> {
    Slice(NewestFirst(rows), 0, limit)
  }

  lemma {:induction false} FilterTwice(rows: seq<Prediction>, category: Option<Label>, color: Option<string>)
    ensures Filter(Filter(rows, (row: Prediction) => category.Some? ==> row.category == category.value),
                   (row: Prediction) => color.Some? ==> row.color == color)
            == Selected(rows, category, color)
  {
    if rows != [] {
      FilterTwice(rows[1..], category, color);
      var byLabel := (row: Prediction) => category.Some? ==> row.category == category.value;
      if byLabel(rows[0]) {
        assert ([rows[0]] + Filter(rows[1..], byLabel))[1..] == Filter(rows[1..], byLabel);
      }
    }
  }

  /** The fake's pages are the query's pages: WHERE, then ORDER BY, then OFFSET and LIMIT. */
  lemma {:induction false} FakeRefinesQuery(
    rows: seq<Prediction>, page: nat, limit: nat, category: Option<Label>, color: Option<string>)
    requires page >= 1
    ensures ListPaginated(rows, page, limit, category, color)
            == Slice(NewestFirst(Selected(rows, category, color)), (page - 1) * limit, limit)
  {
    FilterTwice(NewestFirst(rows), category, color);
    FilterCommutes(rows, (row: Prediction) => Wanted(row, category, color));
  }

  lemma {:induction false} EverythingSelected(rows: seq<Prediction>)
    ensures Selected(rows, None, None) == rows
  {
    if rows != [] {
      EverythingSelected(rows[1..]);
      assert rows == [rows[0]] + rows[1..];
    }
  }

  /** The recent predictions are the first page without filters. */
  lemma {:induction false} RecentIsFirstPage(rows: seq<Prediction>, limit: nat)
    ensures ListRecent(rows, limit) == ListPaginated(rows, 1, limit, None, None)
  {
    FakeRefinesQuery(rows, 1, limit, None, None);
    EverythingSelected(rows);
  }

  /** Pages 1 to n, one after the other. */
  function Pages(rows: seq<Prediction>, n: nat, limit: nat, category: Option<Label>, color: Option<string>):
    seq<Prediction>
  {
    if n == 0 then []
    else Pages(rows, n - 1, limit, category, color) + ListPaginated(rows, n, limit, category, color)
  }

  lemma SliceOn<T>(items: seq<T>, n: nat, limit: nat)
    ensures Slice(items, 0, n * limit) + Slice(items, n * limit, limit) == Slice(items, 0, (n + 1) * limit)
  {
    assert (n + 1) * limit == n * limit + limit;
  }

  /** The first n pages are the first n * limit rows of the whole list: nothing repeated, nothing missed. */
  lemma {:induction false} PagesArePrefix(
    rows: seq<Prediction>, n: nat, limit: nat, category: Option<Label>, color: Option<string>)
    ensures Pages(rows, n, limit, category, color)
            == Slice(NewestFirst(Selected(rows, category, color)), 0, n * limit)
  {
    var all := NewestFirst(Selected(rows, category, color));
    hide NewestFirst;
    hide Selected;
    hide ListPaginated;
    if n == 0 {
      assert Slice(all, 0, 0) == [];
    } else {
      hide Slice;
      PagesArePrefix(rows, n - 1, limit, category, color);
      FakeRefinesQuery(rows, n, limit, category, color);
      SliceOn(all, n - 1, limit);
    }
  }

  /** Enough pages of any positive size are the whole list. */
  lemma {:induction false} PagesAreAll(
    rows: seq<Prediction>, n: nat, limit: nat, category: Option<Label>, color: Option<string>)
    requires limit >= 1 && n * limit >= |Selected(rows, category, color)|
    ensures Pages(rows, n, limit, category, color) == NewestFirst(Selected(rows, category, color))
  {
    PagesArePrefix(rows, n, limit, category, color);
    SortSorts(Selected(rows, category, color));
    assert |multiset(NewestFirst(Selected(rows, category, color)))| == |multiset(Selected(rows, category, color))|;
  }

  // ---------------------------------------------------------------------------
  // The order survives writes
  // ---------------------------------------------------------------------------

  /** Rows with the same ids and the same moments, whatever else has changed. */
  predicate SameOrderKeys(rows: seq<Prediction>, rows': seq<Prediction>) {
    |rows| == |rows'|
    && forall i :: 0 <= i < |rows| ==> rows'[i].id == rows[i].id && rows'[i].createdAt == rows[i].createdAt
  }

  lemma {:induction false} InsertKeepsOrder(
    row: Prediction, sorted: seq<Prediction>, row': Prediction, sorted': seq<Prediction>)
    requires row'.id == row.id && row'.createdAt == row.createdAt && SameOrderKeys(sorted, sorted')
    ensures SameOrderKeys(Insert(row, sorted), Insert(row', sorted'))
  {
    if sorted != [] && sorted[0].createdAt > row.createdAt {
      InsertKeepsOrder(row, sorted[1..], row', sorted'[1..]);
    }
  }

  lemma {:induction false} SortKeepsOrder(rows: seq<Prediction>, rows': seq<Prediction>)
    requires SameOrderKeys(rows, rows')
    ensures SameOrderKeys(NewestFirst(rows), NewestFirst(rows'))
  {
    if rows != [] {
      SortKeepsOrder(rows[1..], rows'[1..]);
      InsertKeepsOrder(rows[0], NewestFirst(rows[1..]), rows'[0], NewestFirst(rows'[1..]));
    }
  }

  /** Delivering a recorded job again, and every request, leaves the newest-first order as it was. */
  lemma {:induction false} OrderUnchanged(db: Db, t: S.Transaction)
    requires t.WorkerWrite? ==>
               Uuid.Parse(t.result.batch).Some? && Uuid.Parse(t.result.document).Some?
               && FindKey(db.predictions, Uuid.Parse(t.result.batch).value, Uuid.Parse(t.result.document).value)
                  < |db.predictions|
    ensures SameOrderKeys(NewestFirst(db.predictions), NewestFirst(S.Commit(db, t).predictions))
  {
    hide Uuid.Parse;
    hide NewestFirst;
    match t {
      case IngestRow(_, _, _) =>
      case WorkerWrite(result, now) =>
        if S.Attempt(db, t).Ok? {
          S.RecordEffect(db, S.PredictionFor(result), now);
        }
        hide S.RecordPrediction;
      case Http(r) =>
        T.HttpKeepsRows(db, r);
        hide S.Attempt;
        hide S.Commit;
    }
    assert SameOrderKeys(db.predictions, S.Commit(db, t).predictions);
    hide S.Commit;
    SortKeepsOrder(db.predictions, S.Commit(db, t).predictions);
  }

  // ---------------------------------------------------------------------------
  // Draining the pages
  // ---------------------------------------------------------------------------

  function Measured(row: Prediction): seq<real> {
    if row.latency.Some? then [row.latency.value] else []
  }

  /** `latency_ms` of the rows that have one, in order. */
  function Latencies(rows: seq<Prediction>): seq<real> {
    if rows == [] then [] else Measured(rows[0]) + Latencies(rows[1..])
  }

  lemma LatenciesOfFirst(row: Prediction, rows: seq<Prediction>)
    ensures Latencies([row] + rows) == Measured(row) + Latencies(rows)
  {
    assert ([row] + rows)[1..] == rows;
  }

  lemma NoLatencies()
    ensures Latencies([]) == []
  {
  }

  lemma {:induction false} LatenciesConcat(a: seq<Prediction>, b: seq<Prediction>)
    ensures Latencies(a + b) == Latencies(a) + Latencies(b)
  {
    hide *;
    if a == [] {
      assert a + b == b;
      NoLatencies();
    } else {
      var row, rest := a[0], a[1..];
      assert a == [row] + rest;
      assert [row] + (rest + b) == a + b;
      LatenciesConcat(rest, b);
      LatenciesOfFirst(row, rest);
      LatenciesOfFirst(row, rest + b);
    }
  }

  lemma {:induction false} LatenciesAreFewer(rows: seq<Prediction>)
    ensures |Latencies(rows)| <= |rows|
  {
    if rows != [] {
      LatenciesAreFewer(rows[1..]);
    }
  }

  lemma LatenciesOfLast(rows: seq<Prediction>)
    requires rows != []
    ensures var n := |rows| - 1; Latencies(rows) == Latencies(rows[..n]) + Measured(rows[n])
  {
    var n := |rows| - 1;
    LatenciesConcat(rows[..n], [rows[n]]);
    LatenciesOfFirst(rows[n], []);
    NoLatencies();
    assert rows == rows[..n] + [rows[n]] && [rows[n]] + [] == [rows[n]];
    hide *;
  }

  /** They are the latencies of just the rows that have one, in the order of the rows. */
  lemma {:induction false} LatenciesAre(rows: seq<Prediction>) returns (at: seq<nat>)
    ensures |at| == |Latencies(rows)|
    ensures forall k :: 0 <= k < |at| ==> at[k] < |rows| && rows[at[k]].latency == Some(Latencies(rows)[k])
    ensures forall j, k :: 0 <= j < k < |at| ==> at[j] < at[k]
    ensures forall i :: 0 <= i < |rows| && rows[i].latency.Some? ==> i in at
  {
    hide Latencies;
    at := [];
    if rows == [] {
      NoLatencies();
    } else {
      var n := |rows| - 1;
      LatenciesOfLast(rows);
      at := LatenciesAre(rows[..n]);
      at := if rows[n].latency.Some? then at + [n] else at;
    }
  }

  lemma DrainStep(all: seq<Prediction>, n: nat)
    ensures Latencies(Slice(all, 0, n * 100)) + Latencies(Slice(all, n * 100, 100))
            == Latencies(Slice(all, 0, (n + 1) * 100))
    ensures |Latencies(Slice(all, n * 100, 100))| <= 100
    ensures |Slice(all, n * 100, 100)| < 100 ==> Slice(all, 0, (n + 1) * 100) == all
  {
    SliceOn(all, n, 100);
    LatenciesConcat(Slice(all, 0, n * 100), Slice(all, n * 100, 100));
    LatenciesAreFewer(Slice(all, n * 100, 100));
  }

  /** The latencies of the first n pages of a hundred rows. */
  function LatenciesOfPages(all: seq<Prediction>, n: nat): seq<real> {
    Latencies(Slice(all, 0, n * 100))
  }

  /** So many pages have been taken, and one fewer was not enough. */
  predicate Taken(all: seq<Prediction>, n: nat, out: seq<real>, maxRecords: int) {
    out == LatenciesOfPages(all, n) && (n > 0 ==> |LatenciesOfPages(all, n - 1)| < maxRecords)
  }

  /**
   `fetch_inference_latencies` over a store that does not change meanwhile: the latencies of the first
   pages of a hundred rows of the newest-first list, of no more pages than it takes, and of enough of
   them unless the list is exhausted.
   */
  method FetchInferenceLatencies(rows: seq<Prediction>, maxRecords: int) returns (out: seq<real>)
    ensures exists n: nat :: Taken(NewestFirst(rows), n, out, maxRecords)
    ensures out == Latencies(NewestFirst(rows)) || |out| >= maxRecords
    ensures maxRecords > 0 ==> |out| < maxRecords + 100
  {
    ghost var all := NewestFirst(rows);
    assert Slice(all, 0, 0) == [];
    out := [];
    var page := 1;
    ghost var n := 0;
    while |out| < maxRecords
      invariant page == n + 1 && Taken(all, n, out, maxRecords)
      invariant maxRecords > 0 ==> |out| < maxRecords + 100
      decreases |all| - n * 100
    {
      var items := ListPaginated(rows, page, 100, None, None);
      EverythingSelected(rows);
      FakeRefinesQuery(rows, page, 100, None, None);
      DrainStep(all, n);
      if items == [] {
        break;
      }
      out := out + Latencies(items);
      n := n + 1;
      assert Taken(all, n, out, maxRecords);
      if |items| < 100 {
        break;
      }
      page := page + 1;
    }
  }
}
