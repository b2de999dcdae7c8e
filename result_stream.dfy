/**
 * The ResultSetIterator state machine as values. A stream is Open while it
 * holds a driver cursor and Closed once its cursor field is null; a driver
 * cursor is a window of documents, a read position and an open flag.
 */
module ResultStream {
  import opened Errors
  import opened Store
  import opened Records

  datatype CursorState = CursorState(docs: seq<Document>, pos: nat, isOpen: bool)

  datatype StreamState = Closed | Open(cursor: CursorState)

  /** DBCursor.hasNext: a closed cursor is refused; storeFault stands for a MongoException. */
  function CursorHasNext(c: CursorState, storeFault: bool): Result<bool, ImportError>
  {
    if !c.isOpen then Failure(IllegalState)
    else if storeFault then Failure(DriverFault)
    else Success(c.pos < |c.docs|)
  }

  /**
   * DBCursor.next followed by the field-by-field copy of getARow. Only a
   * successful call advances the cursor.
   */
  function NextOnCursor(c: CursorState, storeFault: bool): (r: (CursorState, Result<Record, ImportError>))
    ensures r.1.Success? <==> c.isOpen && !storeFault && c.pos < |c.docs|
    ensures r.1.Success? ==> r.0 == c.(pos := c.pos + 1) && r.1.value == c.docs[c.pos]
    ensures r.1.Failure? ==> r.0 == c
  {
    if !c.isOpen then (c, Failure(IllegalState))
    else if storeFault then (c, Failure(DriverFault))
    else if c.pos >= |c.docs| then (c, Failure(NoSuchElement))
    else (c.(pos := c.pos + 1), Success(c.docs[c.pos]))
  }

  /**
   * hasnext: Closed answers false; exhaustion closes and answers false; a
   * MongoException closes and is rethrown as SEVERE; any other exception
   * passes through and leaves the stream as it was.
   */
  function HasNext(s: StreamState, storeFault: bool): (r: (StreamState, Result<bool, ImportError>))
    ensures r.1 == Success(true) <==> s.Open? && s.cursor.isOpen && !storeFault && s.cursor.pos < |s.cursor.docs|
    ensures r.1 == Success(true) ==> r.0 == s
    ensures r.1 == Success(false) || r.1 == Failure(Severe(StoreFault)) <==> r.0 == Closed
    ensures s.Closed? ==> r == (Closed, Success(false))
    ensures s.Open? && s.cursor.isOpen && storeFault ==> r == (Closed, Failure(Severe(StoreFault)))
    ensures s.Open? && s.cursor.isOpen && !storeFault && s.cursor.pos >= |s.cursor.docs| ==> r == (Closed, Success(false))
    ensures s.Open? && !s.cursor.isOpen ==> r == (s, Failure(IllegalState))
  {
    match s
    case Closed => (Closed, Success(false))
    case Open(c) =>
      match CursorHasNext(c, storeFault)
      case Success(more) => if more then (s, Success(true)) else (Closed, Success(false))
      case Failure(e) => if e == DriverFault then (Closed, Failure(Severe(StoreFault))) else (s, Failure(e))
  }

  /** The answers of successive hasNext calls, one per entry of `faults`. */
  function Replay(s: StreamState, faults: seq<bool>): (answers: seq<Result<bool, ImportError>>)
    ensures |answers| == |faults|
    decreases |faults|
  {
    if |faults| == 0 then []
    else
      var (next, answer) := HasNext(s, faults[0]);
      [answer] + Replay(next, faults[1..])
  }

  /** Exhaustion is terminal: once hasNext answers false, every later call answers false. */
  lemma {:induction false} ExhaustionIsTerminal(s: StreamState, fault: bool, later: seq<bool>)
    requires HasNext(s, fault).1 == Success(false)
    ensures HasNext(s, fault).0 == Closed
    ensures forall i :: 0 <= i < |later| ==> Replay(Closed, later)[i] == Success(false)
    decreases |later|
  {
    if |later| > 0 {
      ExhaustionIsTerminal(Closed, later[0], later[1..]);
      assert Replay(Closed, later) == [Success(false)] + Replay(Closed, later[1..]);
    }
  }

  /** The caller's loop: while (it.hasNext()) take it.next(), with no store faults. */
  function Drain(s: StreamState): (r: (seq<Record>, StreamState))
    requires s.Open? ==> s.cursor.pos <= |s.cursor.docs|
    decreases if s.Open? then |s.cursor.docs| - s.cursor.pos + 1 else 0
  {
    var (afterTest, more) := HasNext(s, false);
    if more == Success(true) then
      var (afterNext, row) := NextOnCursor(afterTest.cursor, false);
      var (rows, final) := Drain(Open(afterNext));
      ([row.value] + rows, final)
    else ([], afterTest)
  }

  /** An open cursor yields exactly its remaining documents, then the stream is Closed. */
  lemma {:induction false} DrainYieldsRemaining(c: CursorState)
    requires c.isOpen && c.pos <= |c.docs|
    ensures Drain(Open(c)) == (c.docs[c.pos..], Closed)
    decreases |c.docs| - c.pos
  {
    if c.pos < |c.docs| {
      assert HasNext(Open(c), false) == (Open(c), Success(true));
      assert NextOnCursor(c, false) == (c.(pos := c.pos + 1), Success(c.docs[c.pos]));
      var c' := c.(pos := c.pos + 1);
      assert Drain(Open(c)) == ([c.docs[c.pos]] + Drain(Open(c')).0, Drain(Open(c')).1);
      DrainYieldsRemaining(c');
      assert c.docs[c.pos..] == [c.docs[c.pos]] + c.docs[c.pos + 1..];
    } else {
      assert HasNext(Open(c), false) == (Closed, Success(false));
      assert Drain(Open(c)) == ([], Closed);
      assert c.docs[c.pos..] == [];
    }
  }
}
