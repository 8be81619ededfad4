/**
 * What the CSV tokenizer (`csv-parser`, a library outside this model) hands
 * to the workout reader: a sequence of events. Tokenizing, quoting and
 * header splitting happen inside the library and are not modelled.
 */
module CsvEvents {
  import opened Wrappers
  import opened Runtime

  /** One cell of a parsed row: its column name and its raw text. */
  datatype Cell = Cell(column: string, text: string)

  /** A row object, its cells in the order `Object.keys` lists them. */
  type Row = seq<Cell>

  /** The events the reader subscribes to: the read stream's `error`, and the
      parser's `headers`, `data`, `error` and `end`. */
  datatype CsvEvent =
    | StreamError(err: JsError)
    | Headers(names: seq<string>)
    | Data(row: Row)
    | ParserError(cause: JsError)
    | End

  /** `Object.keys(row)`. */
  function Keys(row: Row): (ks: seq<string>)
    ensures |ks| == |row|
    ensures forall i :: 0 <= i < |row| ==> ks[i] == row[i].column
  {
    if row == [] then [] else [row[0].column] + Keys(row[1..])
  }

  /** `field in row`. */
  predicate Has(row: Row, field: string)
  {
    field in Keys(row)
  }

  /** `row[field]`: the text of the first cell of that column, or `undefined`. */
  function Lookup(row: Row, field: string): (v: Option<string>)
    ensures v.Some? <==> Has(row, field)
    ensures v.Some? ==> exists i :: 0 <= i < |row| && row[i] == Cell(field, v.value)
  {
    if row == [] then None
    else if row[0].column == field then Some(row[0].text)
    else Lookup(row[1..], field)
  }
}
