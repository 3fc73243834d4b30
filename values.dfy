/** The values the driver puts into the dictionaries it hands back to the host. */
module Values {

  datatype Value = Str(s: string) | Int(i: int) | Bool(b: bool) | Ints(xs: seq<int>)

  /** A Python dict from field name to value, as returned by `get_readings`,
      `_match_fingerprint` and `do_command`. */
  type Fields = map<string, Value>
}
