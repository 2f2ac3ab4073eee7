/**
 * The values an RDAP document is built from: Python dicts, lists, strings,
 * numbers, and the `datetime` objects that some transformers leave in the
 * dict for the framework's renderer to serialise.
 */
module Json {
  import opened Wrappers

  /** A naive or aware Python `datetime`. */
  datatype DateTime = DateTime(year: int, month: int, day: int,
                               hour: int, minute: int, second: int,
                               microsecond: int, tzinfo: Option<string>)

  /** A Python `date`. */
  datatype Date = Date(year: int, month: int, day: int)

  datatype Json =
    | JNull
    | JBool(b: bool)
    | JInt(n: int)
    | JStr(s: string)
    | JArr(items: seq<Json>)
    | JObj(fields: map<string, Json>)
    | JDateTime(dt: DateTime)

  /** A top-level document: a JSON object. */
  type Doc = map<string, Json>

  /** A list of strings as a JSON array, element by element. */
  function JStrs(xs: seq<string>): (r: seq<Json>)
    ensures |r| == |xs|
    ensures forall i :: 0 <= i < |xs| ==> r[i] == JStr(xs[i])
  {
    if xs == [] then [] else JStrs(xs[..|xs| - 1]) + [JStr(xs[|xs| - 1])]
  }
}
