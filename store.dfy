/**
 * The document store as the data source sees it: a server holds databases,
 * a database holds collections, a collection is a sequence of documents.
 * A query is an already-parsed filter; find(q).limit(l).skip(s) yields a
 * window of the matching documents.
 */
module Store {

  /** A field value of a document: scalars, arrays and embedded documents. */
  datatype Value =
    | Null
    | Bool(b: bool)
    | Int(i: int)
    | Str(s: string)
    | Array(items: seq<Value>)
    | Embedded(fields: map<string, Value>)

  /** A document: its top-level field names and their values. */
  type Document = map<string, Value>

  /** A query filter, the parsed form of the query text. */
  type Filter = Document -> bool

  type Database = map<string, seq<Document>>

  type Server = map<string, Database>

  /** getDB: a database that does not exist yet is an empty one. */
  function GetDatabase(server: Server, name: string): Database
  {
    if name in server then server[name] else map[]
  }

  /** getCollection: a collection that does not exist yet is an empty one. */
  function GetCollection(db: Database, name: string): seq<Document>
  {
    if name in db then db[name] else []
  }

  /** find(filter): the documents of the collection that the filter accepts, in collection order. */
  function Matches(collection: seq<Document>, filter: Filter): (r: seq<Document>)
    ensures |r| <= |collection|
    ensures forall d :: d in r ==> d in collection && filter(d)
    ensures forall d :: d in collection && filter(d) ==> d in r
  {
    if |collection| == 0 then []
    else
      var rest := Matches(collection[1..], filter);
      assert forall d :: d in collection && d != collection[0] ==> d in collection[1..];
      if filter(collection[0]) then [collection[0]] + rest else rest
  }

  /**
   * find(filter) keeps every accepted document as often as the collection
   * holds it, and no rejected one.
   */
  lemma {:induction false} MatchesCounts(collection: seq<Document>, filter: Filter)
    ensures forall d :: multiset(Matches(collection, filter))[d] == if filter(d) then multiset(collection)[d] else 0
    decreases |collection|
  {
    if |collection| > 0 {
      MatchesCounts(collection[1..], filter);
      assert collection == [collection[0]] + collection[1..];
    }
  }

  /**
   * find(filter) keeps collection order: the matches of a collection split
   * in two are the matches of the first part followed by those of the second.
   */
  lemma {:induction false} MatchesAppend(front: seq<Document>, back: seq<Document>, filter: Filter)
    ensures Matches(front + back, filter) == Matches(front, filter) + Matches(back, filter)
    decreases |front|
  {
    if |front| == 0 {
      assert front + back == back;
    } else {
      var joined := front + back;
      assert joined[0] == front[0] && joined[1..] == front[1..] + back;
      MatchesAppend(front[1..], back, filter);
    }
  }

  /** The bounds of one query window: find(q).limit(limit).skip(skip). */
  datatype PageRequest = PageRequest(limit: nat, skip: nat)

  /**
   * The documents a page request returns. A page shorter than its limit
   * ends at the last match; DBCursor.size() is the length of this window.
   */
  function Page(matches: seq<Document>, request: PageRequest): (r: seq<Document>)
    ensures |r| <= request.limit
    ensures |r| < request.limit ==> request.skip + |r| >= |matches|
    ensures request.skip + |r| <= |matches| || |r| == 0
    ensures forall i :: 0 <= i < |r| ==> r[i] == matches[request.skip + i]
  {
    if request.skip >= |matches| then []
    else if request.skip + request.limit <= |matches| then matches[request.skip..request.skip + request.limit]
    else matches[request.skip..]
  }
}
