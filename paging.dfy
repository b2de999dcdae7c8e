/**
 * The paging rule of getData(String): one query with limit 500, then
 * re-query while the last page held exactly 500 documents. The local batch
 * size shadows the configured one and the skip never advances past 500,
 * because fetchedResult is never incremented; only the last page reaches
 * the caller.
 */
module Paging {
  import opened Store

  /** The local batch size of getData, which shadows the configured field. */
  const LocalBatchSize: nat := 500

  /** fetchedResult: initialised to 0 and never changed. */
  const FetchedResult: nat := 0

  /** The first query: find(q).limit(batchSize). */
  const FirstRequest: PageRequest := PageRequest(LocalBatchSize, 0)

  /** Every later query: find(q).limit(batchSize).skip(fetchedResult + batchSize). */
  const RepeatRequest: PageRequest := PageRequest(LocalBatchSize, FetchedResult + LocalBatchSize)

  /**
   * What the pre-scan loop ends with: the page requests it issued, in order,
   * and the documents of the last page, the only ones the returned iterator
   * yields. Unbounded: the loop was still running when the fuel ran out.
   */
  datatype ScanOutcome =
    | Finished(requests: seq<PageRequest>, last: seq<Document>)
    | Unbounded

  /** The loop, from a state where `requests` were issued and `page` is the last one's result. */
  function ScanFrom(matches: seq<Document>, requests: seq<PageRequest>, page: seq<Document>, fuel: nat): ScanOutcome
    decreases fuel
  {
    if |page| != LocalBatchSize then Finished(requests, page)
    else if fuel == 0 then Unbounded
    else ScanFrom(matches, requests + [RepeatRequest], Page(matches, RepeatRequest), fuel - 1)
  }

  /** The page for this request held a whole batch, which sends the loop round again. */
  predicate FullPage(matches: seq<Document>, request: PageRequest)
  {
    |Page(matches, request)| == LocalBatchSize
  }

  /**
   * From any point of the loop, a finished scan only appends (500, 500)
   * re-queries to the requests issued so far; every page but the last was
   * full, and the last one, which the iterator is bound to, was not.
   */
  lemma {:induction false} ScanShape(matches: seq<Document>, requests: seq<PageRequest>, page: seq<Document>, fuel: nat)
    requires |requests| > 0 && page == Page(matches, requests[|requests| - 1])
    requires forall i :: 0 <= i < |requests| - 1 ==> FullPage(matches, requests[i])
    ensures ScanFrom(matches, requests, page, fuel).Finished? ==>
      var r := ScanFrom(matches, requests, page, fuel);
      |requests| <= |r.requests| && r.requests[..|requests|] == requests &&
      (forall i :: |requests| <= i < |r.requests| ==> r.requests[i] == RepeatRequest) &&
      (forall i :: 0 <= i < |r.requests| - 1 ==> FullPage(matches, r.requests[i])) &&
      r.last == Page(matches, r.requests[|r.requests| - 1]) && |r.last| != LocalBatchSize
    decreases fuel
  {
    if |page| == LocalBatchSize && fuel > 0 {
      var extended := requests + [RepeatRequest];
      assert forall i :: 0 <= i < |extended| - 1 ==> extended[i] == requests[i];
      ScanShape(matches, extended, Page(matches, RepeatRequest), fuel - 1);
      var r := ScanFrom(matches, extended, Page(matches, RepeatRequest), fuel - 1);
      if r.Finished? {
        assert r.requests[..|requests|] == r.requests[..|extended|][..|requests|];
      }
    }
  }

  /**
   * The pre-scan of getData over the matching documents, allowed `fuel`
   * re-queries. The first request is (limit 500, skip 0), every later one
   * (limit 500, skip 500); every page but the last was full, and the last,
   * which the caller gets, was short.
   */
  function PreScan(matches: seq<Document>, fuel: nat): (r: ScanOutcome)
    ensures r.Finished? ==> |r.requests| >= 1 && r.requests[0] == PageRequest(500, 0)
    ensures r.Finished? ==> forall i :: 1 <= i < |r.requests| ==> r.requests[i] == PageRequest(500, 500)
    ensures r.Finished? ==> forall i :: 0 <= i < |r.requests| - 1 ==> |Page(matches, r.requests[i])| == 500
    ensures r.Finished? ==> r.last == Page(matches, r.requests[|r.requests| - 1]) && |r.last| < 500
  {
    ScanShape(matches, [FirstRequest], Page(matches, FirstRequest), fuel);
    ScanFrom(matches, [FirstRequest], Page(matches, FirstRequest), fuel)
  }

  /** Fewer than 500 matches: exactly one query, and the iterator gets every match. */
  lemma {:induction false} SingleQueryBelowBatch(matches: seq<Document>, fuel: nat)
    requires |matches| < 500
    ensures PreScan(matches, fuel) == Finished([PageRequest(500, 0)], matches)
  {
    assert Page(matches, FirstRequest) == matches;
  }

  /** Exactly 500 matches: a second query returns an empty final page, so nothing is yielded. */
  lemma {:induction false} EmptyFinalPageAtBatch(matches: seq<Document>, fuel: nat)
    requires |matches| == 500 && fuel >= 1
    ensures PreScan(matches, fuel) == Finished([PageRequest(500, 0), PageRequest(500, 500)], [])
  {
    assert Page(matches, FirstRequest) == matches;
    assert Page(matches, RepeatRequest) == [];
    assert [FirstRequest] + [RepeatRequest] == [PageRequest(500, 0), PageRequest(500, 500)];
    assert ScanFrom(matches, [FirstRequest, RepeatRequest], [], fuel - 1)
        == Finished([PageRequest(500, 0), PageRequest(500, 500)], []);
  }

  /** 500 to 999 matches: two queries, and only the matches from the 501st on are yielded. */
  lemma {:induction false} SecondPageOnly(matches: seq<Document>, fuel: nat)
    requires 500 <= |matches| < 1000 && fuel >= 1
    ensures PreScan(matches, fuel) == Finished([PageRequest(500, 0), PageRequest(500, 500)], matches[500..])
  {
    assert |Page(matches, FirstRequest)| == 500;
    assert Page(matches, RepeatRequest) == matches[500..];
    assert [FirstRequest] + [RepeatRequest] == [PageRequest(500, 0), PageRequest(500, 500)];
    assert ScanFrom(matches, [FirstRequest, RepeatRequest], matches[500..], fuel - 1)
        == Finished([PageRequest(500, 0), PageRequest(500, 500)], matches[500..]);
  }

  /** Once the (500, 500) page is full, the loop re-issues it for as long as it is allowed to run. */
  lemma {:induction false} RepeatNeverFinishes(matches: seq<Document>, requests: seq<PageRequest>, fuel: nat)
    requires |Page(matches, RepeatRequest)| == LocalBatchSize
    ensures ScanFrom(matches, requests, Page(matches, RepeatRequest), fuel) == Unbounded
    decreases fuel
  {
    if fuel > 0 {
      RepeatNeverFinishes(matches, requests + [RepeatRequest], fuel - 1);
    }
  }

  /** 1000 or more matches: the second page is full and is fetched again forever. */
  lemma {:induction false} NeverFinishesFrom1000(matches: seq<Document>, fuel: nat)
    requires |matches| >= 1000
    ensures PreScan(matches, fuel) == Unbounded
  {
    assert |Page(matches, FirstRequest)| == LocalBatchSize;
    assert |Page(matches, RepeatRequest)| == LocalBatchSize;
    if fuel > 0 {
      RepeatNeverFinishes(matches, [FirstRequest, RepeatRequest], fuel - 1);
    }
  }

  /** getData returns for some amount of fuel exactly when there are fewer than 1000 matches. */
  lemma {:induction false} TerminatesIff(matches: seq<Document>)
    ensures (exists fuel: nat :: PreScan(matches, fuel).Finished?) <==> |matches| < 1000
  {
    if |matches| < 500 {
      SingleQueryBelowBatch(matches, 1);
    } else if |matches| < 1000 {
      SecondPageOnly(matches, 1);
    } else {
      forall fuel: nat ensures !PreScan(matches, fuel).Finished? {
        NeverFinishesFrom1000(matches, fuel);
      }
    }
  }

  /**
   * Paging as evidently intended: the configured batch size, the skip
   * advanced by one batch per query, and every page kept, so the caller gets
   * all matches in order.
   */
  method FetchAll(matches: seq<Document>, batchSize: nat) returns (rows: seq<Document>, requests: seq<PageRequest>)
    requires batchSize > 0
    ensures rows == matches
    ensures |requests| >= 1 && (|requests| - 1) * batchSize <= |matches| < |requests| * batchSize
    ensures forall i :: 0 <= i < |requests| ==> requests[i] == PageRequest(batchSize, i * batchSize)
  {
    var skip := 0;
    var page := Page(matches, PageRequest(batchSize, 0));
    rows := page;
    requests := [PageRequest(batchSize, 0)];
    while |page| == batchSize
      invariant |requests| >= 1 && skip == (|requests| - 1) * batchSize
      invariant forall i :: 0 <= i < |requests| ==> requests[i] == PageRequest(batchSize, i * batchSize)
      invariant skip <= |matches|
      invariant page == Page(matches, PageRequest(batchSize, skip))
      invariant skip + |page| <= |matches| && rows == matches[..skip + |page|]
      decreases |matches| - skip
    {
      skip := skip + batchSize;
      page := Page(matches, PageRequest(batchSize, skip));
      assert matches[..skip + |page|] == matches[..skip] + page;
      rows := rows + page;
      requests := requests + [PageRequest(batchSize, skip)];
    }
    assert |requests| * batchSize == skip + batchSize;
  }
}
