/** Conversion of one fetched document into a flat import record (getARow). */
module Records {
  import opened Store

  /** The row handed to the import pipeline: field name to value (a HashMap). */
  type Record = map<string, Value>

  /**
   * Copies every top-level field of the document into a fresh map, one key
   * at a time; embedded documents and arrays are passed on unconverted.
   */
  method CopyFields(document: Document) returns (row: Record)
    ensures row.Keys == document.Keys
    ensures forall key :: key in document ==> row[key] == document[key]
  {
    row := map[];
    var keys := document.Keys;
    while keys != {}
      invariant keys <= document.Keys
      invariant row.Keys == document.Keys - keys
      invariant forall key :: key in row ==> row[key] == document[key]
      decreases |keys|
    {
      var key :| key in keys;
      row := row[key := document[key]];
      keys := keys - {key};
    }
  }
}
