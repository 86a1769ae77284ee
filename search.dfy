/** The `/search` route (`search.py`): ordering of the hybrid-search rows and the response built
    from them. The embedding, the database function and the language model are inputs. */
module Search {
  import opened Wrappers
  import opened Strings
  import opened Http

  /** One row of the `hybrid_search` database function. */
  datatype Row = Row(hybridScore: real, interactionDate: string, details: string)

  predicate SortedDesc(rows: seq<Row>) {
    forall i, j :: 0 <= i < j < |rows| ==> rows[i].hybridScore >= rows[j].hybridScore
  }

  /** Places `x`, which came before every row of `rows`, ahead of the first row that does not
      score higher. */
  function InsertDesc(x: Row, rows: seq<Row>): (r: seq<Row>)
    ensures multiset(r) == multiset(rows) + multiset{x}
  {
    if rows == [] || rows[0].hybridScore <= x.hybridScore then [x] + rows
    else
      assert rows == [rows[0]] + rows[1..];
      [rows[0]] + InsertDesc(x, rows[1..])
  }

  /** Inserting into sorted rows keeps them sorted. */
  lemma {:induction false} InsertSorted(x: Row, rows: seq<Row>)
    requires SortedDesc(rows)
    ensures SortedDesc(InsertDesc(x, rows))
  {
    var r := InsertDesc(x, rows);
    if rows == [] || rows[0].hybridScore <= x.hybridScore {
      forall j | 0 < j < |r|
        ensures r[0].hybridScore >= r[j].hybridScore
      {
        assert r[j] == rows[j - 1];
      }
    } else {
      var tail := InsertDesc(x, rows[1..]);
      InsertSorted(x, rows[1..]);
      assert r == [rows[0]] + tail;
      forall j | 0 <= j < |tail|
        ensures rows[0].hybridScore >= tail[j].hybridScore
      {
        assert tail[j] in multiset(tail);
        assert tail[j] == x || tail[j] in multiset(rows[1..]);
        if tail[j] != x {
          var k :| 0 <= k < |rows[1..]| && rows[1..][k] == tail[j];
          assert rows[k + 1] == tail[j];
        }
      }
    }
  }

  /** `sorted(rows, key=hybrid_score, reverse=True)`: the rows rearranged into non-increasing
      score order. */
  function SortDesc(rows: seq<Row>): (r: seq<Row>)
    ensures SortedDesc(r)
    ensures multiset(r) == multiset(rows)
  {
    if rows == [] then []
    else
      assert rows == [rows[0]] + rows[1..];
      InsertSorted(rows[0], SortDesc(rows[1..]));
      InsertDesc(rows[0], SortDesc(rows[1..]))
  }

  /** The rows with score `s`, in their order. */
  function WithScore(rows: seq<Row>, s: real): seq<Row> {
    if rows == [] then []
    else (if rows[0].hybridScore == s then [rows[0]] else []) + WithScore(rows[1..], s)
  }

  lemma {:induction false} InsertWithScore(x: Row, rows: seq<Row>, s: real)
    ensures WithScore(InsertDesc(x, rows), s) == (if x.hybridScore == s then [x] else []) + WithScore(rows, s)
  {
    if rows == [] || rows[0].hybridScore <= x.hybridScore {
      assert ([x] + rows)[1..] == rows;
    } else {
      var inserted := InsertDesc(x, rows[1..]);
      InsertWithScore(x, rows[1..], s);
      var r := [rows[0]] + inserted;
      assert r[1..] == inserted;
      assert WithScore(r, s) == (if rows[0].hybridScore == s then [rows[0]] else []) + WithScore(inserted, s);
      assert WithScore(rows, s) == (if rows[0].hybridScore == s then [rows[0]] else []) + WithScore(rows[1..], s);
      if x.hybridScore == s {
        assert rows[0].hybridScore != s;
      } else {
        assert WithScore(inserted, s) == WithScore(rows[1..], s);
      }
    }
  }

  /** The sort is stable: rows of equal score keep the order the database returned them in. */
  lemma {:induction false} SortDescStable(rows: seq<Row>, s: real)
    ensures WithScore(SortDesc(rows), s) == WithScore(rows, s)
  {
    if rows != [] {
      SortDescStable(rows[1..], s);
      InsertWithScore(rows[0], SortDesc(rows[1..]), s);
    }
  }

  // ---------------------------------------------------------------- response

  /** `generate_response(prompt)`: the model's text, or None when the call failed. */
  type Llm = string -> Option<string>

  datatype SearchResponse = SearchResponse(results: seq<Row>, llmAnswer: Option<string>, count: int)

  function ContextLine(r: Row): string {
    r.interactionDate + ": " + r.details
  }

  function ContextLines(rows: seq<Row>): (ls: seq<string>)
    ensures |ls| == |rows|
    ensures forall k :: 0 <= k < |rows| ==> ls[k] == ContextLine(rows[k])
  {
    if rows == [] then [] else [ContextLine(rows[0])] + ContextLines(rows[1..])
  }

  /** The context handed to the model: one line per row, in the sorted order. */
  function Context(rows: seq<Row>): string {
    Join("\n", ContextLines(rows))
  }

  function AnswerPrompt(context: string, query: string): string {
    "Answer based on these interactions:\n" + context + "\n\nQuestion: " + query
  }

  /** `hybrid_search`, given the rows of the database call or the text of the exception raised
      while computing the embedding or calling the database: the rows sorted by score, a count
      equal to the number of results, and an answer from the model only when there is a
      result; an exception becomes a 500 error carrying its text. */
  function HybridSearch(query: string, rows: Result<seq<Row>, string>, llm: Llm): (r: Result<SearchResponse, HttpError>)
    ensures rows.Failure? ==> r == Failure(HttpError(500, rows.error))
    ensures rows.Success? ==> r.Success?
    ensures r.Success? ==> r.value.results == SortDesc(rows.value)
    ensures r.Success? ==> SortedDesc(r.value.results) && multiset(r.value.results) == multiset(rows.value)
    ensures r.Success? ==> r.value.count == |r.value.results| == |rows.value|
    ensures r.Success? && rows.value == [] ==> r.value.llmAnswer.None?
    ensures r.Success? && rows.value != [] ==> r.value.llmAnswer == llm(AnswerPrompt(Context(r.value.results), query))
  {
    match rows
    case Failure(e) => Failure(HttpError(500, e))
    case Success(data) =>
      var sorted := SortDesc(data);
      assert |sorted| == |multiset(sorted)| == |data|;
      var answer := if sorted != [] then llm(AnswerPrompt(Context(sorted), query)) else None;
      Success(SearchResponse(sorted, answer, |sorted|))
  }

  /** The context lists the results in order: the line of the `k`-th result appears, and it
      appears before the line of the next one. */
  lemma ContextInOrder(rows: seq<Row>, k: nat)
    requires k < |rows|
    ensures OccursAt(Context(rows), ContextLine(rows[k]), JoinOffset("\n", ContextLines(rows), k))
    ensures k + 1 < |rows| ==>
              JoinOffset("\n", ContextLines(rows), k) < JoinOffset("\n", ContextLines(rows), k + 1)
  {
    JoinOccurs("\n", ContextLines(rows), k);
    if k + 1 < |rows| {
      JoinOffsetIncreases("\n", ContextLines(rows), k);
    }
  }
}
