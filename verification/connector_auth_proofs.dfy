/** What the credential loader promises: the classifier picks a shape from the
    presence of the four field names alone, the loaded map classifies every
    connector on its own, and the wrapper conversions copy their fields
    verbatim into the shape the classifier would pick for the same fields. */
module ConnectorAuthProofs {
  import opened Masking
  import opened Toml
  import opened RouterTypes
  import opened ConnectorAuth

  /** The recognised names present in `table` are exactly the first `k` of
      `FieldNames`. */
  predicate HasShape(table: map<string, TomlValue>, k: nat) {
    forall i :: 0 <= i < |FieldNames| ==> (FieldNames[i] in table <==> i < k)
  }

  /** A table holding exactly the first `k` recognised names, `k` at least one,
      gets the shape with `k` fields, each field the string of the matching
      entry (empty when that entry is not a string). */
  lemma ClassifyRecognisedShape(table: map<string, TomlValue>, k: nat)
    requires 1 <= k <= |FieldNames| && HasShape(table, k)
    ensures |Classify(Table(table)).Values()| == k
    ensures forall i :: 0 <= i < k ==> Classify(Table(table)).Values()[i] == StrOrDefault(table[FieldNames[i]])
  {
    assert FieldNames[0] in table;
    assert (FieldNames[1] in table <==> 1 < k) && (FieldNames[2] in table <==> 2 < k);
    assert FieldNames[3] in table <==> 3 < k;
  }

  /** The classifier gives `NoKey` exactly when the recognised names present
      are not a non-empty leading part of `FieldNames`. */
  lemma ClassifyNoKeyIffNoShape(table: map<string, TomlValue>)
    ensures Classify(Table(table)).NoKey? <==> forall k :: 1 <= k <= |FieldNames| ==> !HasShape(table, k)
  {
    var auth := Classify(Table(table));
    if auth.NoKey? {
      forall k | 1 <= k <= |FieldNames| ensures !HasShape(table, k) {
        if HasShape(table, k) {
          ClassifyRecognisedShape(table, k);
        }
      }
    } else {
      var k := |auth.Values()|;
      assert FieldNames[0] == "api_key" && FieldNames[1] == "key1";
      assert FieldNames[2] == "api_secret" && FieldNames[3] == "key2";
      assert HasShape(table, k);
    }
  }

  /** The shape depends only on which recognised names are present and on the
      strings they contribute: other entries, and the difference between a
      non-string value and an empty string, never matter. */
  lemma ClassifyDependsOnRecognisedFields(t1: map<string, TomlValue>, t2: map<string, TomlValue>)
    requires forall i :: 0 <= i < |FieldNames| ==> (FieldNames[i] in t1 <==> FieldNames[i] in t2)
    requires forall i :: 0 <= i < |FieldNames| && FieldNames[i] in t1 ==>
               StrOrDefault(t1[FieldNames[i]]) == StrOrDefault(t2[FieldNames[i]])
    ensures Classify(Table(t1)) == Classify(Table(t2))
  {
    assert FieldNames[0] == "api_key" && FieldNames[1] == "key1";
    assert FieldNames[2] == "api_secret" && FieldNames[3] == "key2";
  }

  /** An entry under a name the classifier does not read never changes the shape. */
  lemma ClassifyIgnoresOtherFields(table: map<string, TomlValue>, name: string, v: TomlValue)
    requires name !in FieldNames
    ensures Classify(Table(table[name := v])) == Classify(Table(table))
  {
    ClassifyDependsOnRecognisedFields(table[name := v], table);
  }

  /** A recognised field whose value is present but not a string counts as
      present and contributes the empty string. */
  lemma ClassifyNonStringIsEmpty(table: map<string, TomlValue>, i: nat, v: TomlValue)
    requires i < |FieldNames| && !v.Str?
    ensures Classify(Table(table[FieldNames[i] := v])) == Classify(Table(table[FieldNames[i] := Str("")]))
  {
    ClassifyDependsOnRecognisedFields(table[FieldNames[i] := v], table[FieldNames[i] := Str("")]);
  }

  /** Presence patterns that are not a leading part of `FieldNames`: no api key,
      key2 without the api secret, or the api secret without key1. */
  lemma ClassifyBrokenPatterns(table: map<string, TomlValue>)
    requires || "api_key" !in table
             || ("key2" in table && "api_secret" !in table)
             || ("api_secret" in table && "key1" !in table)
    ensures Classify(Table(table)) == NoKey
  {
  }

  /** The table written from a list of at most four strings classifies as the
      shape carrying exactly those strings. */
  lemma ClassifyTableOf(values: seq<string>)
    requires 1 <= |values| <= |FieldNames|
    ensures Classify(Table(TableOf(values))) == FromValues(values)
  {
    var table := TableOf(values);
    assert HasShape(table, |values|);
    ClassifyRecognisedShape(table, |values|);
    ValuesInjective(Classify(Table(table)), FromValues(values));
  }

  /** A credential entry holding a wrapper's peeked fields classifies as the
      value the wrapper converts to. */
  lemma HeaderKeyAgreesWithClassify(key: HeaderKey)
    ensures Classify(Table(TableOf(key.Peeked()))) == key.ToAuthType()
  {
    ClassifyTableOf(key.Peeked());
    ValuesInjective(FromValues(key.Peeked()), key.ToAuthType());
  }

  lemma BodyKeyAgreesWithClassify(key: BodyKey)
    ensures Classify(Table(TableOf(key.Peeked()))) == key.ToAuthType()
  {
    ClassifyTableOf(key.Peeked());
    ValuesInjective(FromValues(key.Peeked()), key.ToAuthType());
  }

  lemma SignatureKeyAgreesWithClassify(key: SignatureKey)
    ensures Classify(Table(TableOf(key.Peeked()))) == key.ToAuthType()
  {
    ClassifyTableOf(key.Peeked());
    ValuesInjective(FromValues(key.Peeked()), key.ToAuthType());
  }

  lemma MultiAuthKeyAgreesWithClassify(key: MultiAuthKey)
    ensures Classify(Table(TableOf(key.Peeked()))) == key.ToAuthType()
  {
    ClassifyTableOf(key.Peeked());
    ValuesInjective(FromValues(key.Peeked()), key.ToAuthType());
  }

  /** Distinct wrappers convert to distinct authentication values. */
  lemma HeaderKeyInjective(a: HeaderKey, b: HeaderKey)
    requires a.ToAuthType() == b.ToAuthType()
    ensures a == b
  {
  }

  lemma BodyKeyInjective(a: BodyKey, b: BodyKey)
    requires a.ToAuthType() == b.ToAuthType()
    ensures a == b
  {
  }

  lemma SignatureKeyInjective(a: SignatureKey, b: SignatureKey)
    requires a.ToAuthType() == b.ToAuthType()
    ensures a == b
  {
  }

  lemma MultiAuthKeyInjective(a: MultiAuthKey, b: MultiAuthKey)
    requires a.ToAuthType() == b.ToAuthType()
    ensures a == b
  {
  }

  /** Changing one connector's entry changes that connector's shape and no other. */
  lemma BuildMapEntryIndependent(authConfig: map<string, TomlValue>, name: string, v: TomlValue)
    ensures BuildMap(authConfig[name := v]) == BuildMap(authConfig)[name := Classify(v)]
  {
  }

  /** The worked examples of the credential loader. */
  lemma Scenarios()
    ensures Classify(Table(map["api_key" := Str("k1")])) == AuthType.HeaderKey("k1")
    ensures Classify(Table(map["api_key" := Str("k1"), "key1" := Str("k2"), "api_secret" := Str("k3"), "key2" := Str("k4")]))
            == AuthType.MultiAuthKey("k1", "k2", "k3", "k4")
    ensures Classify(Table(map["key1" := Str("onlykey1")])) == NoKey
    ensures Classify(Str("k1")) == NoKey
  {
  }
}
