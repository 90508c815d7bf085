/** The part of a parsed TOML document that the credential loader looks at. */
module Toml {

  datatype Option<+T> = None | Some(value: T) {

    /** The held value, or `default` when there is none. */
    function UnwrapOr(default: T): (r: T)
      ensures Some? ==> r == value
      ensures None? ==> r == default
    {
      match this
      case Some(v) => v
      case None => default
    }
  }

  /** A TOML value: a string, a table of named values, or anything else
      (integer, float, boolean, datetime, array), which the loader never
      distinguishes. */
  datatype TomlValue = Str(s: string) | Table(fields: map<string, TomlValue>) | Other

  /** Looking up a key of a table: absent keys give `None`. */
  function Get(table: map<string, TomlValue>, key: string): (r: Option<TomlValue>)
    ensures r.Some? <==> key in table
    ensures r.Some? ==> r.value == table[key]
  {
    if key in table then Some(table[key]) else None
  }

  /** The string inside a value, if the value is a string. */
  function AsStr(v: TomlValue): (r: Option<string>)
    ensures r.Some? <==> v.Str?
    ensures r.Some? ==> r.value == v.s
  {
    match v
    case Str(s) => Some(s)
    case _ => None
  }
}
