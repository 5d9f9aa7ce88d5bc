/** testmanager/config.go: typed reads from the decoded configuration map. */
module Config {
  import V = Values

  /** testmanager.Config: decoded JSON/YAML values by key. */
  type Config = map<string, V.Value>

  /** Config.Bool: the stored boolean and true, or (false, false) when the
      key is missing or holds anything but a bool. */
  function Bool(c: Config, key: string): (r: (bool, bool))
    ensures r.1 <==> key in c && c[key].Bool?
    ensures r.1 ==> r.0 == c[key].b
    ensures !r.1 ==> !r.0
  {
    if key !in c then (false, false)
    else if !c[key].Bool? then (false, false)
    else (c[key].b, true)
  }

  /** Config.Int: int(f) and true when the key holds a float64, as every
      decoded JSON number is; (0, false) for a missing key or any other
      value, a Go int included. */
  function Int(c: Config, key: string): (r: (int, bool))
    ensures r.1 <==> key in c && c[key].Float?
    ensures r.1 ==> r.0 == c[key].n.trunc
    ensures !r.1 ==> r.0 == 0
  {
    if key !in c then (0, false)
    else if !c[key].Float? then (0, false)
    else (c[key].n.trunc, true)
  }

  /** A stored boolean reads back; other keys are not affected. */
  lemma BoolReadsBack(c: Config, key: string, b: bool, other: string)
    requires other != key
    ensures Bool(c[key := V.Bool(b)], key) == (b, true)
    ensures Bool(c[key := V.Bool(b)], other) == Bool(c, other)
  {
  }

  /** A whole float64 reads back as that integer. */
  lemma IntReadsBack(c: Config, key: string, i: int)
    ensures Int(c[key := V.Float(V.IntNumber(i))], key) == (i, true)
  {
  }

  /** A Go int under the key is not read: only float64 counts. */
  lemma GoIntIsNotRead(c: Config, key: string, i: int)
    ensures Int(c[key := V.Int(i)], key) == (0, false)
  {
  }

  /** A boolean is never an integer and a number never a boolean. */
  lemma BoolAndIntExclusive(c: Config, key: string)
    ensures !(Bool(c, key).1 && Int(c, key).1)
  {
  }
}
