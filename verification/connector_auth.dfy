/** The credential loader of the connector test harness: it turns the parsed
    credential file, a table from connector name to an untyped TOML value, into
    a typed authentication value per connector, and converts the statically
    typed wrapper records into the same authentication values. */
module ConnectorAuth {
  import opened Masking
  import opened Toml
  import opened RouterTypes

  /** The four credential field names the classifier reads, in the order in
      which the nested shapes add them. */
  const FieldNames: seq<string> := ["api_key", "key1", "api_secret", "key2"]

  /** The string a present field contributes: its text when it is a TOML
      string, and the empty string for any other kind of value. */
  function StrOrDefault(v: TomlValue): (s: string)
    ensures v.Str? ==> s == v.s
    ensures !v.Str? ==> s == ""
  {
    AsStr(v).UnwrapOr("")
  }

  /** Infers the authentication shape of one connector's configuration value
      from which of the four field names its table holds. A value that is not
      a table, or a table whose recognised names are not exactly a leading
      part of `FieldNames`, gets `NoKey`. */
  function Classify(config: TomlValue): (auth: AuthType)
    ensures !config.Table? ==> auth == NoKey
    ensures config.Table? && "api_key" !in config.fields ==> auth == NoKey
  {
    match config
    case Table(table) => (
      match (Get(table, "api_key"), Get(table, "key1"), Get(table, "api_secret"), Get(table, "key2"))
      case (Some(apiKey), None, None, None) =>
        AuthType.HeaderKey(StrOrDefault(apiKey))
      case (Some(apiKey), Some(key1), None, None) =>
        AuthType.BodyKey(StrOrDefault(apiKey), StrOrDefault(key1))
      case (Some(apiKey), Some(key1), Some(apiSecret), None) =>
        AuthType.SignatureKey(StrOrDefault(apiKey), StrOrDefault(key1), StrOrDefault(apiSecret))
      case (Some(apiKey), Some(key1), Some(apiSecret), Some(key2)) =>
        AuthType.MultiAuthKey(StrOrDefault(apiKey), StrOrDefault(key1), StrOrDefault(apiSecret), StrOrDefault(key2))
      case _ => NoKey)
    case _ => NoKey
  }

  /** Classifies every connector of the parsed credential file: the result has
      the same connector names, each mapped to the shape of its own value. */
  function BuildMap(authConfig: map<string, TomlValue>): (authMap: map<string, AuthType>)
    ensures authMap.Keys == authConfig.Keys
    ensures forall name :: name in authConfig ==> authMap[name] == Classify(authConfig[name])
  {
    map name | name in authConfig :: Classify(authConfig[name])
  }

  /** The loaded map from connector name to authentication value. */
  datatype ConnectorAuthenticationMap = ConnectorAuthenticationMap(authMap: map<string, AuthType>) {

    /** Read-only view of the whole map. */
    function Inner(): (m: map<string, AuthType>)
      ensures ConnectorAuthenticationMap(m) == this
    {
      authMap
    }
  }

  /** Builds the loader's map from the already parsed credential file; locating,
      reading and parsing the file is not part of this model. */
  function New(authConfig: map<string, TomlValue>): (loaded: ConnectorAuthenticationMap)
    ensures loaded.Inner().Keys == authConfig.Keys
    ensures forall name :: name in authConfig ==> loaded.Inner()[name] == Classify(authConfig[name])
  {
    ConnectorAuthenticationMap(BuildMap(authConfig))
  }

  /** Wrapper record for a single header key. */
  datatype HeaderKey = HeaderKey(apiKey: Secret) {

    /** The peeked field strings, in field order. */
    function Peeked(): seq<string> { [apiKey.Peek()] }

    /** Converts to the single-key authentication value. */
    function ToAuthType(): (auth: AuthType)
      ensures auth.HeaderKey? && auth.Values() == Peeked()
    {
      AuthType.HeaderKey(apiKey.Peek())
    }
  }

  /** Wrapper record for a key pair. */
  datatype BodyKey = BodyKey(apiKey: Secret, key1: Secret) {

    function Peeked(): seq<string> { [apiKey.Peek(), key1.Peek()] }

    /** Converts to the key-pair authentication value. */
    function ToAuthType(): (auth: AuthType)
      ensures auth.BodyKey? && auth.Values() == Peeked()
    {
      AuthType.BodyKey(apiKey.Peek(), key1.Peek())
    }
  }

  /** Wrapper record for a key triple. */
  datatype SignatureKey = SignatureKey(apiKey: Secret, key1: Secret, apiSecret: Secret) {

    function Peeked(): seq<string> { [apiKey.Peek(), key1.Peek(), apiSecret.Peek()] }

    /** Converts to the key-triple authentication value. */
    function ToAuthType(): (auth: AuthType)
      ensures auth.SignatureKey? && auth.Values() == Peeked()
    {
      AuthType.SignatureKey(apiKey.Peek(), key1.Peek(), apiSecret.Peek())
    }
  }

  /** Wrapper record for a key quadruple. */
  datatype MultiAuthKey = MultiAuthKey(apiKey: Secret, key1: Secret, apiSecret: Secret, key2: Secret) {

    function Peeked(): seq<string> { [apiKey.Peek(), key1.Peek(), apiSecret.Peek(), key2.Peek()] }

    /** Converts to the key-quadruple authentication value. */
    function ToAuthType(): (auth: AuthType)
      ensures auth.MultiAuthKey? && auth.Values() == Peeked()
    {
      AuthType.MultiAuthKey(apiKey.Peek(), key1.Peek(), apiSecret.Peek(), key2.Peek())
    }
  }

  /** The credential table holding the first `|values|` field names, each bound
      to the matching string: what a credential file entry for a wrapper with
      those field strings looks like. */
  function TableOf(values: seq<string>): (table: map<string, TomlValue>)
    requires |values| <= |FieldNames|
    ensures forall i :: 0 <= i < |FieldNames| ==> (FieldNames[i] in table <==> i < |values|)
    ensures forall i :: 0 <= i < |values| ==> table[FieldNames[i]] == Str(values[i])
  {
    if values == [] then map[]
    else
      var n := |values| - 1;
      TableOf(values[..n])[FieldNames[n] := Str(values[n])]
  }
}
