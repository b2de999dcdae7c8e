/**
 * The data source object and its result-set iterator as classes over the
 * modelled driver: a connection object, cursors that the source and the
 * iterator share, and the fields init and getData assign.
 */
module DataSource {
  import opened Errors
  import opened Store
  import opened Records
  import opened Paging
  import opened ResultStream
  import opened Config
  import opened JavaInt

  /** A connection to the store, the driver's Mongo object. */
  class MongoClient {
    const host: string
    const port: int
    const server: Server
    var isOpen: bool

    constructor (host: string, port: int, server: Server)
      ensures this.host == host && this.port == port && this.server == server && isOpen
    {
      this.host := host;
      this.port := port;
      this.server := server;
      isOpen := true;
    }

    method Close()
      modifies this
      ensures !isOpen
    {
      isOpen := false;
    }
  }

  /** A driver cursor over one query window, the driver's DBCursor. */
  class DocCursor {
    const docs: seq<Document>
    var pos: nat
    var isOpen: bool

    constructor (docs: seq<Document>)
      ensures Snapshot() == CursorState(docs, 0, true)
    {
      this.docs := docs;
      pos := 0;
      isOpen := true;
    }

    ghost function Snapshot(): CursorState
      reads this
    {
      CursorState(docs, pos, isOpen)
    }

    /** DBCursor.size(): the number of documents in the window. */
    function Size(): nat
    {
      |docs|
    }

    method HasNext(storeFault: bool) returns (r: Result<bool, ImportError>)
      ensures r == CursorHasNext(Snapshot(), storeFault)
    {
      if !isOpen {
        r := Failure(IllegalState);
      } else if storeFault {
        r := Failure(DriverFault);
      } else {
        r := Success(pos < |docs|);
      }
    }

    method Next(storeFault: bool) returns (r: Result<Document, ImportError>)
      modifies this
      ensures (Snapshot(), r) == NextOnCursor(old(Snapshot()), storeFault)
    {
      if !isOpen {
        r := Failure(IllegalState);
      } else if storeFault {
        r := Failure(DriverFault);
      } else if pos >= |docs| {
        r := Failure(NoSuchElement);
      } else {
        r := Success(docs[pos]);
        pos := pos + 1;
      }
    }

    /** DBCursor.close(), which may itself throw. */
    method Close(closeFault: bool) returns (r: Outcome<ImportError>)
      modifies this
      ensures closeFault ==> r == Fail(DriverFault) && isOpen == old(isOpen)
      ensures !closeFault ==> r == Pass && !isOpen
      ensures pos == old(pos)
    {
      if closeFault {
        r := Fail(DriverFault);
      } else {
        isOpen := false;
        r := Pass;
      }
    }
  }

  /**
   * The private ResultSetIterator: hasnext reads its own cursor field, while
   * getARow reads the cursor field of the enclosing data source.
   */
  class ResultSetIterator {
    var cursor: DocCursor?
    const source: MongoDataSource

    constructor (source: MongoDataSource, cursor: DocCursor?)
      ensures this.source == source && this.cursor == cursor
    {
      this.source := source;
      this.cursor := cursor;
    }

    ghost function State(): StreamState
      reads this, cursor
    {
      if cursor == null then Closed else Open(cursor.Snapshot())
    }

    /**
     * hasnext. Exhaustion and a MongoException (storeFault) both close the
     * cursor; a failure of the driver's close (closeFault) is suppressed.
     */
    method HasNextRow(storeFault: bool, closeFault: bool) returns (r: Result<bool, ImportError>)
      modifies this, cursor
      ensures (State(), r) == HasNext(old(State()), storeFault)
      ensures cursor == null || cursor == old(cursor)
      ensures old(cursor) != null ==> old(cursor).pos == old(cursor.pos)
      ensures old(cursor) != null && cursor == null && !closeFault ==> !old(cursor).isOpen
      ensures old(cursor) != null && (cursor != null || closeFault) ==> old(cursor).isOpen == old(cursor.isOpen)
    {
      if cursor == null {
        return Success(false);
      }
      var answer := cursor.HasNext(storeFault);
      match answer
      case Success(more) =>
        if more {
          r := Success(true);
        } else {
          CloseCursor(closeFault);
          r := Success(false);
        }
      case Failure(e) =>
        if e == DriverFault {
          CloseCursor(closeFault);
          r := Failure(Severe(StoreFault));
        } else {
          r := Failure(e);
        }
    }

    /** getARow: take the next document of the source's cursor and copy its fields. */
    method GetARow(storeFault: bool) returns (r: Result<Record, ImportError>)
      modifies source.mongoCursor
      ensures old(source.mongoCursor) == null ==> r == Failure(NullPointer)
      ensures source.mongoCursor != null ==>
        (source.mongoCursor.Snapshot(), r) == NextOnCursor(old(source.mongoCursor.Snapshot()), storeFault)
    {
      var current := source.mongoCursor;
      if current == null {
        return Failure(NullPointer);
      }
      var fetched := current.Next(storeFault);
      match fetched
      case Failure(e) =>
        r := Failure(e);
      case Success(document) =>
        var row := CopyFields(document);
        assert row == document;
        r := Success(row);
    }

    /** remove: does nothing. */
    method Remove()
      ensures State() == old(State())
    {
    }

    /**
     * close: the driver cursor is closed if there is one, a failure of that
     * close is only logged, and the field is nulled in every case.
     */
    method CloseCursor(closeFault: bool)
      modifies this, cursor
      ensures cursor == null && State() == Closed
      ensures old(cursor) != null ==> old(cursor).pos == old(cursor.pos)
      ensures old(cursor) != null && !closeFault ==> !old(cursor).isOpen
      ensures old(cursor) != null && closeFault ==> old(cursor).isOpen == old(cursor.isOpen)
    {
      if cursor != null {
        var outcome := cursor.Close(closeFault);
      }
      cursor := null;
    }
  }

  /** What getData hands back; Unbounded stands for a pre-scan that does not end. */
  datatype Fetch =
    | Fetched(stream: ResultSetIterator)
    | FetchFailed(error: ImportError)
    | Unbounded

  class MongoDataSource {
    var mongoCollection: Option<seq<Document>>
    var mongoDb: Option<Database>
    var mongo: MongoClient?
    var mongoCursor: DocCursor?
    var batchSize: int

    constructor ()
      ensures batchSize == DefaultBatchSize
      ensures mongoCollection == None && mongoDb == None && mongo == null && mongoCursor == null
    {
      batchSize := DefaultBatchSize;
      mongoCollection := None;
      mongoDb := None;
      mongo := null;
      mongoCursor := null;
    }

    /**
     * init. `hostResolves` says whether the host name resolves and `accepts`
     * is the store's verdict on a username and password. The batch size is
     * read before the database check, and a failed authentication leaves the
     * connection assigned.
     */
    method Init(props: Properties, server: Server, hostResolves: bool, accepts: (string, string) -> bool)
      returns (r: Outcome<ImportError>)
      modifies this
      ensures r == InitOutcome(props, hostResolves, accepts)
      ensures batchSize == ConfiguredBatchSize(old(batchSize), props)
      ensures Connects(props, hostResolves) ==>
        fresh(mongo) && mongo.isOpen && mongo.server == server &&
        mongo.host == Host(props) && Some(mongo.port) == ParseInt(PortText(props)) &&
        mongoDb == Some(GetDatabase(server, props[DATABASE]))
      ensures !Connects(props, hostResolves) ==> mongo == old(mongo) && mongoDb == old(mongoDb)
      ensures mongoCollection == old(mongoCollection) && mongoCursor == old(mongoCursor)
    {
      var databaseName := if DATABASE in props then Some(props[DATABASE]) else None;
      var host := GetProperty(props, HOST, DefaultHost);
      var port := GetProperty(props, PORT, DefaultPort);
      var username := if USERNAME in props then Some(props[USERNAME]) else None;
      var password := if PASSWORD in props then Some(props[PASSWORD]) else None;
      var batchSizeText := if BATCH_SIZE in props then Some(props[BATCH_SIZE]) else None;
      if batchSizeText.Some? {
        var parsed := ParseInt(batchSizeText.value);
        if parsed.Some? {
          batchSize := parsed.value;
        }
      }
      if databaseName.None? {
        return Fail(Severe(DatabaseMissing));
      }
      var portNumber := ParseInt(port);
      if portNumber.None? {
        return Fail(NumberFormat);
      }
      if !hostResolves {
        return Fail(Severe(ConnectFailed));
      }
      mongo := new MongoClient(host, portNumber.value, server);
      mongoDb := Some(GetDatabase(server, databaseName.value));
      if username.Some? {
        if password.None? {
          return Fail(NullPointer);
        }
        if !accepts(username.value, password.value) {
          return Fail(Severe(AuthenticationFailed));
        }
      }
      r := Pass;
    }

    /**
     * getData(query): `query` is the parsed query text (None when it does not
     * parse) and `fuel` bounds the re-queries of the pre-scan. The iterator
     * returned shares the source's last cursor.
     */
    method GetData(query: Option<Filter>, fuel: nat) returns (r: Fetch, requests: seq<PageRequest>)
      modifies this
      ensures batchSize == old(batchSize) && mongo == old(mongo)
      ensures mongoDb == old(mongoDb) && mongoCollection == old(mongoCollection)
      ensures query.None? ==> r == FetchFailed(QueryParse) && mongoCursor == old(mongoCursor)
      ensures query.Some? && mongoCollection.None? ==> r == FetchFailed(NullPointer) && mongoCursor == old(mongoCursor)
      ensures r.FetchFailed? ==> requests == [] && mongoCursor == old(mongoCursor)
      ensures query.Some? && mongoCollection.Some? ==>
        var scan := PreScan(Matches(mongoCollection.value, query.value), fuel);
        (r.Unbounded? <==> scan.Unbounded?) && (r.Fetched? <==> scan.Finished?)
      ensures r.Fetched? ==>
        query.Some? && mongoCollection.Some? &&
        var scan := PreScan(Matches(mongoCollection.value, query.value), fuel);
        requests == scan.requests &&
        fresh(r.stream) && fresh(mongoCursor) &&
        r.stream.source == this && r.stream.cursor == mongoCursor &&
        r.stream.State() == Open(CursorState(scan.last, 0, true))
    {
      requests := [];
      if query.None? {
        return FetchFailed(QueryParse), requests;
      }
      var batchSize := LocalBatchSize;
      var fetchedResult := FetchedResult;
      if mongoCollection.None? {
        return FetchFailed(NullPointer), requests;
      }
      var matches := Matches(mongoCollection.value, query.value);
      var request := PageRequest(batchSize, 0);
      mongoCursor := new DocCursor(Page(matches, request));
      requests := [request];
      var resultSet := new ResultSetIterator(this, mongoCursor);
      var remaining := fuel;
      while mongoCursor.Size() == batchSize
        invariant this.batchSize == old(this.batchSize) && mongo == old(mongo)
        invariant mongoDb == old(mongoDb) && mongoCollection == old(mongoCollection)
        invariant mongoCursor != null && fresh(mongoCursor) && fresh(resultSet)
        invariant resultSet.source == this && resultSet.cursor == mongoCursor
        invariant mongoCursor.pos == 0 && mongoCursor.isOpen
        invariant ScanFrom(matches, requests, mongoCursor.docs, remaining) == PreScan(matches, fuel)
        decreases remaining
      {
        if remaining == 0 {
          return Fetch.Unbounded, requests;
        }
        remaining := remaining - 1;
        request := PageRequest(batchSize, fetchedResult + batchSize);
        mongoCursor := new DocCursor(Page(matches, request));
        requests := requests + [request];
        resultSet := new ResultSetIterator(this, mongoCursor);
      }
      r := Fetched(resultSet);
    }

    /** getData(query, collection): select the collection, then getData(query). */
    method GetDataFrom(query: Option<Filter>, collection: string, fuel: nat) returns (r: Fetch, requests: seq<PageRequest>)
      modifies this
      ensures batchSize == old(batchSize) && mongo == old(mongo) && mongoDb == old(mongoDb)
      ensures old(mongoDb).None? ==> r == FetchFailed(NullPointer) && mongoCollection == old(mongoCollection)
      ensures mongoDb.Some? ==> mongoCollection == Some(GetCollection(mongoDb.value, collection))
      ensures mongoDb.Some? && query.None? ==> r == FetchFailed(QueryParse)
      ensures r.FetchFailed? ==> requests == [] && mongoCursor == old(mongoCursor)
      ensures mongoDb.Some? && query.Some? ==>
        var scan := PreScan(Matches(GetCollection(mongoDb.value, collection), query.value), fuel);
        (r.Unbounded? <==> scan.Unbounded?) && (r.Fetched? <==> scan.Finished?) &&
        (r.Fetched? ==>
          requests == scan.requests &&
          fresh(r.stream) && fresh(mongoCursor) &&
          r.stream.source == this && r.stream.cursor == mongoCursor &&
          r.stream.State() == Open(CursorState(scan.last, 0, true)))
    {
      if mongoDb.None? {
        return FetchFailed(NullPointer), [];
      }
      mongoCollection := Some(GetCollection(mongoDb.value, collection));
      r, requests := GetData(query, fuel);
    }

    /**
     * close: the current cursor, then the connection. A failure of the
     * cursor's close propagates and the connection stays open; the fields
     * keep their references.
     */
    method Close(cursorCloseFault: bool) returns (r: Outcome<ImportError>)
      modifies mongoCursor, mongo
      ensures mongoCursor != null && cursorCloseFault ==>
        r == Fail(DriverFault) && mongoCursor.isOpen == old(mongoCursor.isOpen) &&
        (mongo != null ==> mongo.isOpen == old(mongo.isOpen))
      ensures !(mongoCursor != null && cursorCloseFault) ==>
        r == Pass && (mongoCursor != null ==> !mongoCursor.isOpen) && (mongo != null ==> !mongo.isOpen)
      ensures mongoCursor != null ==> mongoCursor.pos == old(mongoCursor.pos)
    {
      if mongoCursor != null {
        var closed := mongoCursor.Close(cursorCloseFault);
        if closed.Fail? {
          return closed;
        }
      }
      if mongo != null {
        mongo.Close();
      }
      r := Pass;
    }
  }

  /** The stream getData returns yields exactly the documents of the last page queried. */
  lemma YieldsLastPage(matches: seq<Document>, fuel: nat)
    requires PreScan(matches, fuel).Finished?
    ensures Drain(Open(CursorState(PreScan(matches, fuel).last, 0, true))) == (PreScan(matches, fuel).last, Closed)
  {
    var last := PreScan(matches, fuel).last;
    DrainYieldsRemaining(CursorState(last, 0, true));
    assert last[0..] == last;
  }

  /** Fewer than 500 matches: one query, and the stream yields every match in order. */
  lemma YieldsAllMatchesBelowBatch(matches: seq<Document>, fuel: nat)
    requires |matches| < 500
    ensures PreScan(matches, fuel).Finished? && |PreScan(matches, fuel).requests| == 1
    ensures Drain(Open(CursorState(PreScan(matches, fuel).last, 0, true))).0 == matches
  {
    SingleQueryBelowBatch(matches, fuel);
    YieldsLastPage(matches, fuel);
  }

  /**
   * The pipeline's use of the returned Iterator: hasNext, then next, until
   * hasNext answers false, with no store faults. While the stream's cursor is
   * still the source's cursor, the rows are the cursor's remaining documents.
   */
  method DrainRows(stream: ResultSetIterator) returns (rows: seq<Record>)
    requires stream.cursor != null && stream.cursor == stream.source.mongoCursor
    requires stream.cursor.isOpen && stream.cursor.pos <= |stream.cursor.docs|
    modifies stream, stream.cursor
    ensures rows == old(stream.cursor.docs[stream.cursor.pos..])
    ensures stream.State() == Closed
  {
    ghost var c := stream.cursor;
    ghost var remaining := c.docs[c.pos..];
    rows := [];
    while true
      invariant stream.cursor == null || stream.cursor == c
      invariant stream.source.mongoCursor == c
      invariant c.pos <= |c.docs| && rows + c.docs[c.pos..] == remaining
      invariant stream.cursor != null ==> c.isOpen
      invariant stream.cursor == null ==> c.pos == |c.docs|
      decreases |c.docs| - c.pos + (if stream.cursor == null then 0 else 1)
    {
      var more := stream.HasNextRow(false, false);
      if more != Success(true) {
        break;
      }
      var row := stream.GetARow(false);
      assert c.docs[c.pos - 1..] == [row.value] + c.docs[c.pos..];
      rows := rows + [row.value];
    }
  }
}
