/**
 * The shape of a CRI UTF table as the CPK writer and reader see it: the
 * name of its column layout and its rows, each mapping column names to
 * cells. lib/cri/utf.py is not part of this model: its encoder and decoder
 * are parameters of the operations that use them.
 */
module Utf {
  import opened Wrappers
  import opened Bytes

  datatype Value = Int(n: int) | Chars(s: string) | Blob(b: seq<byte>)

  type Row = map<string, Value>

  datatype Table = Table(spec: string, rows: seq<Row>)

  datatype FieldError = MissingColumn(column: string) | NotAnInteger(column: string) | NotBytes(column: string)

  /** `row[column]` read as an integer. */
  function IntField(row: Row, column: string): (r: Result<int, FieldError>)
    ensures r.Ok? <==> column in row && row[column].Int?
    ensures r.Ok? ==> row[column] == Int(r.value)
  {
    if column !in row then Err(MissingColumn(column))
    else if !row[column].Int? then Err(NotAnInteger(column))
    else Ok(row[column].n)
  }

  /** `row[column]` read as a byte string. */
  function BlobField(row: Row, column: string): (r: Result<seq<byte>, FieldError>)
    ensures r.Ok? <==> column in row && row[column].Blob?
    ensures r.Ok? ==> row[column] == Blob(r.value)
  {
    if column !in row then Err(MissingColumn(column))
    else if !row[column].Blob? then Err(NotBytes(column))
    else Ok(row[column].b)
  }
}
