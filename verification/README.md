# Connector credential loader

A Dafny model of the credential loader of the hyperswitch connector test
harness (`crates/test_utils/src/connector_auth.rs`). The loader reads a TOML
file that maps each payment connector's name to a table of credential fields
and turns it into a typed `ConnectorAuthType` per connector. Two pieces are
modelled:

- the **shape classifier** behind `ConnectorAuthenticationMap::new`: for each
  connector it looks at the four field names `api_key`, `key1`, `api_secret`
  and `key2`, and the exact present/absent pattern picks one of `NoKey`,
  `HeaderKey`, `BodyKey`, `SignatureKey` or `MultiAuthKey`; a present field
  that is not a TOML string contributes the empty string;
- the **wrapper conversions** `From<HeaderKey | BodyKey | SignatureKey |
  MultiAuthKey> for ConnectorAuthType`, which read every `Secret<String>`
  field with `peek()` and copy it into the variant of the same name.

Files and modules:

- `masking.dfy` (`Masking`): `Secret`, a string held behind a wrapper whose only
  accessor is `Peek`.
- `toml.dfy` (`Toml`): the parsed TOML value (string, table, anything else),
  table lookup and `as_str`.
- `router_types.dfy` (`RouterTypes`): the five variants of `ConnectorAuthType`
  that the loader builds. `Values` lists the strings a variant carries, in
  field order. `FromValues` is its inverse. Together they state that the
  variants' field sets are strictly nested, so that every list of at most
  four strings is the content of exactly one variant.
- `connector_auth.dfy` (`ConnectorAuth`): the classifier, the map builder, the
  `ConnectorAuthenticationMap` value with `inner`, the four wrapper records and
  their conversions, and `TableOf`, which writes a list of strings as a
  credential table.
- `connector_auth_proofs.dfy` (`ConnectorAuthProofs`): the properties. They use
  an independent description of the classifier. `HasShape(table, k)` holds when
  the recognised names present are exactly the first `k` of `api_key`, `key1`,
  `api_secret`, `key2`.

## Model

| member | source | states |
|---|---|---|
| `Masking.Secret.Peek` | crates/test_utils/src/connector_auth.rs:185 | peeking returns the held string; re-wrapping it gives back the same secret |
| `ConnectorAuth.StrOrDefault` | crates/test_utils/src/connector_auth.rs:143 | a string value contributes its text; any other value contributes `""` |
| `RouterTypes.AuthType.Values` | crates/test_utils/src/connector_auth.rs:142-163 | each variant carries at most four strings; only `NoKey` carries none |
| `RouterTypes.FromValues` | crates/test_utils/src/connector_auth.rs:142-163 | every list of at most four strings is carried by exactly the variant built from it (round trip through `Values`) |
| `RouterTypes.FromValuesOfValues` | crates/test_utils/src/connector_auth.rs:142-163 | every variant is rebuilt from its own strings (the other round trip) |
| `RouterTypes.ValuesInjective` | crates/test_utils/src/connector_auth.rs:142-163 | two variants that carry the same strings are equal |
| `ConnectorAuth.Classify` | crates/test_utils/src/connector_auth.rs:134-168 | a non-table value, or a table without `api_key`, classifies as `NoKey` |
| `ConnectorAuthProofs.ClassifyRecognisedShape` | crates/test_utils/src/connector_auth.rs:136-163 | a table holding exactly the first k recognised names (k from 1 to 4) gets the k-field variant: `HeaderKey`, `BodyKey`, `SignatureKey` or `MultiAuthKey`. Field i is the string of the i-th name's value, or `""` when that value is not a string |
| `ConnectorAuthProofs.ClassifyNoKeyIffNoShape` | crates/test_utils/src/connector_auth.rs:136-165 | a table classifies as `NoKey` if and only if its recognised names are not a non-empty leading part of the four names |
| `ConnectorAuthProofs.ClassifyBrokenPatterns` | crates/test_utils/src/connector_auth.rs:164 | missing `api_key`, `key2` without `api_secret`, or `api_secret` without `key1` gives `NoKey` |
| `ConnectorAuthProofs.ClassifyDependsOnRecognisedFields` | crates/test_utils/src/connector_auth.rs:136-164 | two tables with the same recognised names present, and the same strings contributed by them, classify alike |
| `ConnectorAuthProofs.ClassifyIgnoresOtherFields` | crates/test_utils/src/connector_auth.rs:137-140 | adding or changing an entry under any other name never changes the result |
| `ConnectorAuthProofs.ClassifyNonStringIsEmpty` | crates/test_utils/src/connector_auth.rs:143-161 | a recognised field holding a non-string value classifies exactly as if it held `""` |
| `ConnectorAuthProofs.Scenarios` | crates/test_utils/src/connector_auth.rs:134-168 | `{api_key = "k1"}` gives `HeaderKey("k1")` and all four keys give `MultiAuthKey("k1","k2","k3","k4")`. `{key1 = "onlykey1"}` gives `NoKey`, and so does a bare string |
| `ConnectorAuth.BuildMap` | crates/test_utils/src/connector_auth.rs:131-171 | the built map has exactly the input's connector names, each mapped to the classification of its own value |
| `ConnectorAuthProofs.BuildMapEntryIndependent` | crates/test_utils/src/connector_auth.rs:131-171 | replacing one connector's value changes only that connector's entry, which becomes the new value's classification |
| `ConnectorAuth.New` | crates/test_utils/src/connector_auth.rs:131-173 | the loaded map, read through `Inner`, has the parsed file's connector names, each mapped to its own classification |
| `ConnectorAuth.ConnectorAuthenticationMap.Inner` | crates/test_utils/src/connector_auth.rs:89-91 | the accessor returns the whole wrapped map: wrapping it again gives back the same value |
| `ConnectorAuth.TableOf` | crates/test_utils/src/connector_auth.rs:108-128 | the table written from n strings holds exactly the first n recognised names, the i-th bound to the i-th string |
| `ConnectorAuth.HeaderKey.ToAuthType` | crates/test_utils/src/connector_auth.rs:182-188 | gives a `HeaderKey` variant whose field is the peeked `api_key` |
| `ConnectorAuth.BodyKey.ToAuthType` | crates/test_utils/src/connector_auth.rs:196-203 | gives a `BodyKey` variant whose fields are the peeked `api_key` and `key1`, in order |
| `ConnectorAuth.SignatureKey.ToAuthType` | crates/test_utils/src/connector_auth.rs:212-220 | gives a `SignatureKey` variant whose fields are the peeked `api_key`, `key1` and `api_secret`, in order |
| `ConnectorAuth.MultiAuthKey.ToAuthType` | crates/test_utils/src/connector_auth.rs:230-239 | gives a `MultiAuthKey` variant whose fields are the four peeked strings, in order |
| `ConnectorAuthProofs.HeaderKeyInjective` | crates/test_utils/src/connector_auth.rs:182-188 | distinct `HeaderKey` wrappers convert to distinct values |
| `ConnectorAuthProofs.BodyKeyInjective` | crates/test_utils/src/connector_auth.rs:196-203 | distinct `BodyKey` wrappers convert to distinct values |
| `ConnectorAuthProofs.SignatureKeyInjective` | crates/test_utils/src/connector_auth.rs:212-220 | distinct `SignatureKey` wrappers convert to distinct values |
| `ConnectorAuthProofs.MultiAuthKeyInjective` | crates/test_utils/src/connector_auth.rs:230-239 | distinct `MultiAuthKey` wrappers convert to distinct values |
| `ConnectorAuthProofs.ClassifyTableOf` | crates/test_utils/src/connector_auth.rs:136-163 | a table written from 1 to 4 strings classifies as the variant carrying exactly those strings |
| `ConnectorAuthProofs.HeaderKeyAgreesWithClassify` | crates/test_utils/src/connector_auth.rs:142-144 | a table holding a `HeaderKey` wrapper's peeked field classifies as that wrapper's conversion |
| `ConnectorAuthProofs.BodyKeyAgreesWithClassify` | crates/test_utils/src/connector_auth.rs:145-148 | a table holding a `BodyKey` wrapper's peeked fields classifies as that wrapper's conversion |
| `ConnectorAuthProofs.SignatureKeyAgreesWithClassify` | crates/test_utils/src/connector_auth.rs:149-155 | a table holding a `SignatureKey` wrapper's peeked fields classifies as that wrapper's conversion |
| `ConnectorAuthProofs.MultiAuthKeyAgreesWithClassify` | crates/test_utils/src/connector_auth.rs:156-163 | a table holding a `MultiAuthKey` wrapper's peeked fields classifies as that wrapper's conversion |

## Left out

- Locating the credential file through the `CONNECTOR_AUTH_FILE_PATH` environment variable, reading it, and the panics when either fails (lines 68-73 and 97-106). This is process I/O. `New` takes the already parsed table as its argument instead.
- TOML parsing and serde deserialisation into the fixed `ConnectorAuthentication` record with one optional wrapper per connector (lines 7-75). These are library calls. The record itself has no logic.
- `AutomationConfigs` (lines 241-259): optional data with no behaviour.
- The `dummy_connector` build feature that adds one field to `ConnectorAuthentication` (lines 23-24).
- The redacted `Debug` rendering of `Secret` and of the wrapper records. It lives in the `masking` crate, which is not part of this model. `Secret` is modelled only as a holder read through `Peek`.
- `HashMap` iteration order. The maps are Dafny `map`s, which have no order, so "loading twice gives equal maps" holds because every member here is a function.
- TOML values other than strings and tables (integers, floats, booleans, datetimes, arrays) are all `Other`. The loader never tells them apart.
