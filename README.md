# MongoDataSource, modelled in Dafny

A Dafny model of `MongoDataSource`, the Solr DataImportHandler data source in
`src/main/org/apache/solr/handler/dataimport/MongoDataSource.java`. The data source runs a
MongoDB query and hands the import pipeline an iterator of flat records. The model covers
the following:

- **init**: property defaults (`host` = `localhost`, `port` = `27017`). `batchSize` is parsed with
  `Integer.parseInt`, and a parse failure falls back to the current value after logging a
  warning (logging is not modelled). A missing `database` is a SEVERE
  error, and authentication runs only when a `username` is given. Everything fails in the code's
  own order.
- **getData**: the paging pre-scan as written, for a store that does not fault (see "Left out").
  The local `batchSize = 500` shadows the configured field. `fetchedResult` never advances, so every re-query is (limit 500, skip 500).
  The loop runs while the current page holds exactly 500 documents. The returned iterator is bound
  to the last page only.
- **ResultSetIterator**: `hasnext`, `getARow`, `remove` and the private `close`, as a class with
  a nullable cursor field. `getARow` reads the data source's cursor field, while `hasnext` reads
  the iterator's own.
- **close**: closes the current cursor, then the connection.

The driver is replaced by values:

- a `Server` maps database names to databases, and a database maps collection names to
  sequences of documents;
- a `Document` is a `map<string, Value>`;
- a query is an already-parsed filter `Document -> bool`;
- `find(q).limit(l).skip(s)` is the window `Page(matches, PageRequest(l, s))`;
- the driver's `Mongo` and `DBCursor` are the small classes `MongoClient` and `DocCursor`.

Store faults (`MongoException`) in `hasnext` and `next`, and failures of the cursor closes, are
boolean parameters. Host resolution and
the credential check are parameters of `Init`.

Modules:

- `Errors`: wrappers and the exceptions that can escape.
- `Store`: documents, filters, page windows.
- `JavaInt`: `Integer.parseInt` and `Integer.toString`.
- `Records`: the `getARow` field copy.
- `Paging`: the pre-scan and the corrected paging.
- `ResultStream`: the iterator's state machine as values.
- `Config`: the property resolution of `init`.
- `DataSource`: the classes.

## Behaviour as written

- Every re-query of `getData` uses skip 500, because `fetchedResult` is never incremented
  (lines 88-95). With 1000 or more matches the (500, 500) page is always full and the loop never
  ends: `Paging.NeverFinishesFrom1000`.
- The batch size set by `init` from the `batchSize` property is ignored: `getData` declares a
  local `batchSize = 500` (line 87) and every request has limit 500.
- Only the iterator's private `close` suppresses close failures. The data source's `close` lets a
  cursor-close failure escape, and the connection then stays open.
- A missing `database` fails before any connection is opened, but the `batchSize` field has
  already been updated from its property by then.

## Model

| member | source | states |
|---|---|---|
| `Store.Matches` | src/main/org/apache/solr/handler/dataimport/MongoDataSource.java:90 | `find(query)` yields only documents of the collection that the filter accepts, every accepted one at least once, and no more of them than the collection holds |
| `Store.MatchesCounts` | src/main/org/apache/solr/handler/dataimport/MongoDataSource.java:90 | `find(query)` holds each accepted document exactly as often as the collection does, and no rejected one |
| `Store.MatchesAppend` | src/main/org/apache/solr/handler/dataimport/MongoDataSource.java:90 | `find(query)` keeps collection order: the matches of a concatenation are the matches of the first part followed by those of the second |
| `Store.Page` | src/main/org/apache/solr/handler/dataimport/MongoDataSource.java:94-95 | a `limit`/`skip` window holds at most `limit` documents, the i-th being match `skip + i`; a page shorter than its limit reaches the last match |
| `JavaInt.ParseInt` | src/main/org/apache/solr/handler/dataimport/MongoDataSource.java:49 | `Integer.parseInt`: text that is not an optional sign followed by digits is rejected; sign-and-digits text parses to its value exactly when that value is within the 32-bit range, and is negative only after a `-` |
| `JavaInt.ParseFormatRoundTrip` | src/main/org/apache/solr/handler/dataimport/MongoDataSource.java:49 | every 32-bit value printed in decimal parses back to itself |
| `JavaInt.DigitsValueOfDigits` | src/main/org/apache/solr/handler/dataimport/MongoDataSource.java:49 | the digits of a natural number read back to that number |
| `Records.CopyFields` | src/main/org/apache/solr/handler/dataimport/MongoDataSource.java:139-147 | the row has exactly the document's top-level keys, each with its value unchanged |
| `Config.ConfiguredBatchSize` | src/main/org/apache/solr/handler/dataimport/MongoDataSource.java:44-56 | `batchSize` changes only when the property is present and parses, and then to the parsed value; it stays a 32-bit value |
| `Config.DecimalBatchSizeTaken` | src/main/org/apache/solr/handler/dataimport/MongoDataSource.java:44-56 | a batch size written in decimal is taken as written |
| `Config.InitOutcome` | src/main/org/apache/solr/handler/dataimport/MongoDataSource.java:38-77 | init fails with "Database must be supplied" exactly when `database` is absent; it fails with "Mongo Authentication Failed" exactly when a connection is made and the given credentials are refused; it succeeds exactly when it connects and any given username is accepted |
| `Config.NoAuthenticationWithoutUsername` | src/main/org/apache/solr/handler/dataimport/MongoDataSource.java:67-72 | without a username the outcome does not depend on the credential check |
| `Config.DefaultPortConnects` | src/main/org/apache/solr/handler/dataimport/MongoDataSource.java:41-63 | without a `port` property the default `27017` parses, so init connects exactly when `database` is given and the host resolves |
| `Paging.ScanShape` | src/main/org/apache/solr/handler/dataimport/MongoDataSource.java:94-99 | from any point of the loop, a finished scan extends the issued requests only with (500, 500) re-queries, every page before the last was full, and the last page is not |
| `Paging.PreScan` | src/main/org/apache/solr/handler/dataimport/MongoDataSource.java:87-101 | the first request is (limit 500, skip 0) and every later one (limit 500, skip 500); every page but the last held 500 documents; the caller gets the last page, which holds fewer than 500 |
| `Paging.SingleQueryBelowBatch` | src/main/org/apache/solr/handler/dataimport/MongoDataSource.java:90-101 | with fewer than 500 matches exactly one query is issued and its page is all the matches |
| `Paging.EmptyFinalPageAtBatch` | src/main/org/apache/solr/handler/dataimport/MongoDataSource.java:94-101 | with exactly 500 matches a second query is issued and the returned page is empty |
| `Paging.SecondPageOnly` | src/main/org/apache/solr/handler/dataimport/MongoDataSource.java:94-101 | with 500 to 999 matches two queries are issued and only the matches from the 501st on are returned |
| `Paging.RepeatNeverFinishes` | src/main/org/apache/solr/handler/dataimport/MongoDataSource.java:94-99 | once the (500, 500) page is full, the loop re-issues it however long it runs |
| `Paging.NeverFinishesFrom1000` | src/main/org/apache/solr/handler/dataimport/MongoDataSource.java:88-99 | with 1000 or more matches the pre-scan does not finish for any bound on its iterations |
| `Paging.TerminatesIff` | src/main/org/apache/solr/handler/dataimport/MongoDataSource.java:94-99 | the pre-scan finishes for some bound exactly when there are fewer than 1000 matches |
| `Paging.FetchAll` | src/main/org/apache/solr/handler/dataimport/MongoDataSource.java:87-101 | corrected paging: the configured batch size, skips 0, b, 2b, …, as many requests as needed to pass the last match, and every match returned in order |
| `ResultStream.NextOnCursor` | src/main/org/apache/solr/handler/dataimport/MongoDataSource.java:136-150 | `next` succeeds exactly on an open, unexhausted cursor with no store fault, returning the document at the cursor and advancing it by one; a failure leaves the cursor as it was |
| `ResultStream.HasNext` | src/main/org/apache/solr/handler/dataimport/MongoDataSource.java:152-167 | answers true exactly on an open, unexhausted cursor with no fault, changing nothing; the stream ends Closed exactly when it answers false or rethrows a store fault as SEVERE; a Closed stream answers false; on an open cursor a store fault closes the stream and is rethrown as SEVERE, exhaustion closes it and answers false, and a driver cursor already closed raises IllegalState with the stream unchanged |
| `ResultStream.ExhaustionIsTerminal` | src/main/org/apache/solr/handler/dataimport/MongoDataSource.java:152-161 | once `hasNext` answers false the stream is Closed and every later call answers false, whatever faults the driver would raise |
| `ResultStream.DrainYieldsRemaining` | src/main/org/apache/solr/handler/dataimport/MongoDataSource.java:118-124 | pulling rows while `hasNext` holds yields exactly the cursor's remaining documents and leaves the stream Closed |
| `DataSource.YieldsLastPage` | src/main/org/apache/solr/handler/dataimport/MongoDataSource.java:90-101 | the stream getData returns yields exactly the documents of the last page queried |
| `DataSource.YieldsAllMatchesBelowBatch` | src/main/org/apache/solr/handler/dataimport/MongoDataSource.java:90-101 | with fewer than 500 matches one query is issued and every match is yielded |
| `DataSource.DrainRows` | src/main/org/apache/solr/handler/dataimport/MongoDataSource.java:117-124 | while the iterator's cursor is the source's cursor, draining the iterator yields the remaining documents and closes it |
| `DataSource.ResultSetIterator.constructor` | src/main/org/apache/solr/handler/dataimport/MongoDataSource.java:114-130 | the iterator holds the given cursor and its enclosing data source |
| `DataSource.ResultSetIterator.HasNextRow` | src/main/org/apache/solr/handler/dataimport/MongoDataSource.java:152-167 | the new state and the answer are those of `ResultStream.HasNext`; the cursor field is either kept or nulled; a nulled cursor was closed unless its close failed, and that failure is suppressed |
| `DataSource.ResultSetIterator.GetARow` | src/main/org/apache/solr/handler/dataimport/MongoDataSource.java:136-150 | reads the data source's cursor, not its own: null gives a NullPointerException; otherwise the cursor and the row follow `ResultStream.NextOnCursor` |
| `DataSource.ResultSetIterator.Remove` | src/main/org/apache/solr/handler/dataimport/MongoDataSource.java:126 | changes nothing |
| `DataSource.ResultSetIterator.CloseCursor` | src/main/org/apache/solr/handler/dataimport/MongoDataSource.java:169-178 | the cursor field is null afterwards in every case; the driver cursor is closed unless its close fails, and that failure is suppressed; a second call changes nothing |
| `DataSource.MongoDataSource.constructor` | src/main/org/apache/solr/handler/dataimport/MongoDataSource.java:31-35 | `batchSize` starts at 500 and every handle starts null |
| `DataSource.MongoDataSource.Init` | src/main/org/apache/solr/handler/dataimport/MongoDataSource.java:38-77 | the outcome is `Config.InitOutcome`; `batchSize` becomes `Config.ConfiguredBatchSize` even when init then fails; a connection to the configured host and port is opened exactly when the database is given, the port parses and the host resolves, and it stays assigned after an authentication failure |
| `DataSource.MongoDataSource.GetData` | src/main/org/apache/solr/handler/dataimport/MongoDataSource.java:80-102 | unparsable query text fails first, then a missing collection, and a failure issues no request and leaves the cursor field as it was; otherwise the requests issued and the returned iterator's window are those of `Paging.PreScan`; the iterator is fresh and shares the source's new cursor |
| `DataSource.MongoDataSource.GetDataFrom` | src/main/org/apache/solr/handler/dataimport/MongoDataSource.java:104-107 | without a database handle it fails with a NullPointerException; a failure issues no request and leaves the cursor field as it was; otherwise it selects the named collection, and the outcome, the requests and the fresh iterator, bound to this source and sharing its new cursor, are those `GetData` states for that collection |
| `DataSource.MongoDataSource.Close` | src/main/org/apache/solr/handler/dataimport/MongoDataSource.java:185-194 | closes the current cursor, then the connection; a failing cursor close escapes and leaves the cursor and the connection open; the cursor's read position never moves; the fields keep their references |

## Findings

| source | as written | input that shows it | evidently intended | confidence | as-written member | corrected member |
|---|---|---|---|---|---|---|
| src/main/org/apache/solr/handler/dataimport/MongoDataSource.java:88-95 | every re-query uses `skip(fetchedResult + batchSize)` with `fetchedResult` never incremented, so it is (500, 500) each time | a query with 1200 matches: the (500, 500) page is always full and the loop never ends | the skip advances by one batch per query: 0, 500, 1000 | high, not executed | `Paging.NeverFinishesFrom1000` | `Paging.FetchAll` |
| src/main/org/apache/solr/handler/dataimport/MongoDataSource.java:91-101 | each re-query replaces the iterator, and only the last one is returned | a query with 700 matches: only matches 501 to 700 are yielded | the pages are chained so that every match is yielded | high, not executed | `Paging.SecondPageOnly` | `Paging.FetchAll` |
| src/main/org/apache/solr/handler/dataimport/MongoDataSource.java:87 | the local `batchSize = 500` shadows the field that init sets from the `batchSize` property | `batchSize=100` configured: every request still has limit 500 | the configured batch size is the page limit | high, not executed | `Paging.PreScan` | `Paging.FetchAll` |

The connector class (`DataSource.MongoDataSource.GetData`) keeps the behaviour as written.
`Paging.FetchAll` states what the corrected paging yields and requests. It requires a positive
batch size. `batchSize=0` or a negative value also parses, and the driver reads those limits
differently (no limit, or a single batch), so they are outside the corrected paging.

## Left out

- The MongoDB driver itself is not modelled. This covers connections, the wire protocol, cursor
  batching, `getDB`/`getCollection` handles and `authenticate`. They become the `Store` values,
  the `MongoClient` and `DocCursor` classes, the `hostResolves` flag and the `accepts` credential
  function.
- `JSON.parse` of the query text is not modelled. `GetData` receives the parsed filter, or None
  when the text does not parse (a parse error or a non-document result).
- `UnknownHostException` is not derived from the host name: it is the `hostResolves` parameter.
  Port range checks inside the driver are not modelled.
- `JavaInt.ParseInt`: digits are ASCII `0`-`9` only. `Integer.parseInt` also accepts other
  Unicode decimal digits.
- Logging (`LOG.warn`), the unused `System.currentTimeMillis()` and the unused `Context`
  parameter have no behaviour to model.
- `DataSource.MongoDataSource.GetData`: the source loops forever when the pre-scan never finds a
  short page. The model bounds the re-queries by a `fuel` parameter and returns `Unbounded` when
  it runs out. `Paging.NeverFinishesFrom1000` and `Paging.TerminatesIff` state which inputs loop
  forever. A `MongoException` from `find` or `size()` during the pre-scan (lines 90-95) is not
  modelled either: the model's store never faults there. In the source, such an exception escapes
  `getData` after the `mongoCursor` field has already been replaced. `Paging.TerminatesIff`,
  `Paging.SecondPageOnly` and `DataSource.YieldsAllMatchesBelowBatch` describe a store that does
  not fault during the pre-scan.
- `DataSource.MongoDataSource.GetDataFrom`: carries the same `fuel` bound as `GetData`.
- Concurrency and overlapping `getData` calls are not modelled. The code is single-threaded.
  A second `getData` replaces the source's cursor, and an earlier iterator's `getARow` then reads
  the new cursor. `GetARow`'s contract states this in terms of the source's field, but no
  interleaving is explored.
- The driver's key order within a document is not modelled: records are maps.
- `DataSource.DrainRows` is the pipeline's consumption loop and assumes no store faults. Faults
  are covered step by step by `HasNextRow` and `GetARow`.
- A failure of `mongo.close()` is not modelled.
- The public `hasNext`/`next` wrappers of the anonymous `Iterator` (lines 117-128) and
  `getIterator` are not separate members: the iterator object stands for them.
