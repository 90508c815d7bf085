/** The uniform authentication value a connector integration consumes. Only the
    five variants the credential loader builds are modelled. */
module RouterTypes {

  /** The credential shapes. Each shape carries the fields of the one before it
      plus one more, in the order api key, key1, api secret, key2. */
  datatype AuthType =
    | NoKey
    | HeaderKey(apiKey: string)
    | BodyKey(apiKey: string, key1: string)
    | SignatureKey(apiKey: string, key1: string, apiSecret: string)
    | MultiAuthKey(apiKey: string, key1: string, apiSecret: string, key2: string)
  {
    /** The credential strings carried, in field order. */
    function Values(): (vs: seq<string>)
      ensures |vs| <= 4
      ensures vs == [] <==> NoKey?
    {
      match this
      case NoKey => []
      case HeaderKey(a) => [a]
      case BodyKey(a, k1) => [a, k1]
      case SignatureKey(a, k1, s) => [a, k1, s]
      case MultiAuthKey(a, k1, s, k2) => [a, k1, s, k2]
    }
  }

  /** The shape that carries exactly the strings `vs`, in field order: the
      nesting of the shapes makes every list of at most four strings the
      content of exactly one shape. */
  function FromValues(vs: seq<string>): (auth: AuthType)
    requires |vs| <= 4
    ensures auth.Values() == vs
  {
    if |vs| == 0 then NoKey
    else if |vs| == 1 then HeaderKey(vs[0])
    else if |vs| == 2 then BodyKey(vs[0], vs[1])
    else if |vs| == 3 then SignatureKey(vs[0], vs[1], vs[2])
    else MultiAuthKey(vs[0], vs[1], vs[2], vs[3])
  }

  /** An authentication value is determined by the strings it carries. */
  lemma FromValuesOfValues(auth: AuthType)
    ensures FromValues(auth.Values()) == auth
  {
  }

  /** Two authentication values with the same strings are the same value. */
  lemma ValuesInjective(a: AuthType, b: AuthType)
    requires a.Values() == b.Values()
    ensures a == b
  {
    FromValuesOfValues(a);
    FromValuesOfValues(b);
  }
}
