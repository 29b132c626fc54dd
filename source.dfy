/**
 * The GraphQL source text together with a display name and the line and column
 * at which it starts in a larger file (atgql/language/source.py).
 */
module Sources {
  import opened Wrappers

  /** A 1-indexed line and column. */
  datatype Location = Location(line: int, column: int)

  const DefaultName: string := "GraphQL request"
  const DefaultOffset: Location := Location(1, 1)

  const LineMessage: string := "line in location_offset is 1-indexed and must be positive."
  const ColumnMessage: string := "column in location_offset is 1-indexed and must be positive."

  /** The message of the first offset check that fails, the line check first. */
  function OffsetError(locationOffset: Location): (e: Option<string>)
    ensures locationOffset.line <= 0 ==> e == Some(LineMessage)
    ensures locationOffset.line > 0 && locationOffset.column <= 0 ==> e == Some(ColumnMessage)
    ensures e == None <==> locationOffset.line > 0 && locationOffset.column > 0
  {
    if locationOffset.line <= 0 then Some(LineMessage)
    else if locationOffset.column <= 0 then Some(ColumnMessage)
    else None
  }

  class Source {
    var body: string
    var name: string
    var locationOffset: Location

    /** The field assignments of `Source.__init__`. */
    constructor (body: string, name: string := DefaultName, locationOffset: Location := DefaultOffset)
      ensures this.body == body && this.name == name && this.locationOffset == locationOffset
    {
      this.body := body;
      this.name := name;
      this.locationOffset := locationOffset;
    }

    /** `repr(source)`. */
    function Repr(): string {
      "Source"
    }
  }

  /**
   * `Source(body, name, location_offset)`: stores the arguments, then checks that
   * the offset is 1-indexed, failing with the message of the first check that does not hold.
   */
  method NewSource(body: string, name: string := DefaultName, locationOffset: Location := DefaultOffset)
    returns (r: Result<Source, string>)
    ensures r.Err? <==> OffsetError(locationOffset).Some?
    ensures r.Err? ==> r.error == OffsetError(locationOffset).value
    ensures r.Ok? ==> fresh(r.value)
    ensures r.Ok? ==> r.value.body == body && r.value.name == name && r.value.locationOffset == locationOffset
  {
    var source := new Source(body, name, locationOffset);
    if source.locationOffset.line <= 0 {
      return Err(LineMessage);
    }
    if source.locationOffset.column <= 0 {
      return Err(ColumnMessage);
    }
    return Ok(source);
  }

  /** The source's test cases for the offset checks; the line message wins when both fail. */
  lemma OffsetExamples()
    ensures OffsetError(Location(0, 1)) == Some(LineMessage)
    ensures OffsetError(Location(-1, 1)) == Some(LineMessage)
    ensures OffsetError(Location(1, 0)) == Some(ColumnMessage)
    ensures OffsetError(Location(1, -1)) == Some(ColumnMessage)
    ensures OffsetError(Location(0, 0)) == Some(LineMessage)
    ensures OffsetError(DefaultOffset) == None
  {
  }
}
