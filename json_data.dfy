/**
 * The values the tool keeps in Python dicts and in its JSON cache file, and a
 * Python dict object: a mutable map shared by reference.
 */
module JsonData {

  datatype Json =
    | JNull
    | JBool(b: bool)
    | JInt(i: int)
    | JStr(s: string)
    | JObj(fields: map<string, Json>)

  /** `d.get(key)`: Python's `None`, i.e. JSON null, when the key is absent. */
  function Get(d: map<string, Json>, key: string): (v: Json)
    ensures key in d ==> v == d[key]
    ensures key !in d ==> v == JNull
  {
    if key in d then d[key] else JNull
  }

  /** A Python `dict` object. Two names for one Dict see each other's updates. */
  class Dict {
    var items: map<string, Json>

    constructor (m: map<string, Json>)
      ensures items == m
    {
      items := m;
    }
  }
}
