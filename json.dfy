/** The dictionary values that the modelled code builds, stores and reads back. */
module Json {

  datatype Json =
    | JStr(s: string)
      /** A string holding the decimal rendering of a number, as Python's `str(x)` makes it. */
    | JNumText(r: real)
      /** An ISO-8601 timestamp string for the instant `t` (seconds). */
    | JTime(t: int)
    | JNum(r: real)
    | JInt(i: int)
    | JBool(b: bool)
    | JNull

  type Record = map<string, Json>
}
