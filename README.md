# livy-rs client core in Dafny

A model of livy-rs, a Rust client for the Apache Livy REST API, and proofs about it. The model covers two clients. `Client` in `src/client.rs` is the current one. `v0_3_0::Client` in `src/v0_3_0.rs` is the older one. Both are modelled down to the request they hand to the HTTP layer. `src/http.rs` is modelled down to the curl handle its `perform` configures. `src/http/mod.rs` contributes the `X-Requested-By` header name and the same three string helpers. `src/utils.rs` has only `remove_trailing_slash`.

Modules, in dependency order:

- `Wrappers`: `Option` and `Result`, the latter with `:-` propagation.
- `Decimal`: Rust's `Display` for integers, and a reader that inverts it.
- `Query`: the helpers `param`, `params` and `remove_trailing_slash`.
  - `src/http.rs` and `src/http/mod.rs` share the text of all three.
  - `src/utils.rs` repeats `remove_trailing_slash` with the same text.
  - `params` is a method whose loop pushes onto a buffer. It is proved against the function `QueryString`: '?' followed by the present fragments joined with '&'.
- `Wire`: the JSON value tree that the serde-derived types are read from and written to, with serde's rules for `Option` fields.
- `Naming`: serde's `rename_all = "camelCase"` rule for snake_case field names and PascalCase variant names.
- `LivyTypes`: the three enumerations and the three request bodies.
  - Each enumeration tag is proved to be the camelCase of its variant name.
  - Each request key is proved to be the camelCase of its field name.
  - Absent optional fields are left out of the body.
  - Each request reads back from the body it writes.
- `Responses`: the records the server answers with, with three properties each:
  - each record reads back from what it writes;
  - an empty object reads as the all-`None` record;
  - unknown keys are ignored.
- `Transport`: `perform` and `send`.
  - `perform` becomes the `Setup` it puts on the curl handle.
  - The network's answer is an `Outcome`, which `send` classifies: only status 200 reaches the decoder.
- `LivyClient`: the current client.
  - `Client::new`, and every public operation as a constructor of `Operation`.
  - The request each operation sends: verb, URL (base plus path plus paging query) and body.
  - `Call`: one operation against a server given as a function from request to `Outcome`.
- `ClientRoutes`: a router, written as the model's reference for the URL scheme, that parses a Livy request back into the `Operation` the client would have sent.
  - `RequestRoutesBack`: every request the client builds routes back to its operation.
  - `RequestForInjective`: hence no two operations share a request.
- `LivyV030`: the older client. It has `delete_session` where the current client has `kill_session`, and no batch state, kill or log operation.
  - Every older operation is proved to send the same request and give the same result as its current counterpart.
  - The older operations are proved pairwise distinguishable.
  - Its accessor methods are stated against the decoded records.

Notes on where the code decides between readings:

- The enumeration tags follow serde's camelCase rule as the code declares it: `notStarted`, `shuttingDown`, `pyspark3`. They are not snake_case.
- `remove_trailing_slash` removes one trailing slash only. It is therefore not idempotent: `"x//"` becomes `"x/"`, then `"x"`. The model follows the code, and `Query.RemoveTrailingSlashTwice` states what does hold.
- In `src/http.rs`, `send` takes no body argument, while both clients pass their request body to it. The model carries the body on the request, as the clients intend.
- In the older client, `SessionDeleteResult`, `StatementCancelResult`, `SessionLog` and the other records have the same fields and keys as in the current client.
  - They are therefore modelled by the same `Responses` records.
  - Every answer that reads only `msg` is the `Message` record.
  - `SessionLog` and `BatchLog` are both `LogPage`.

## Model

| member | source | states |
|---|---|---|
| Query.Param | src/http.rs:38-43 | a fragment is produced exactly when the value is present |
| Query.ParamExamples | src/http.rs:35-36 | `param("from", Some(2))` is `from=2` and `param("from", None)` is nothing |
| Query.ParamRoundTrip | src/http/mod.rs:21-26 | for a key without '=', the fragment `key=value` reads back as that key and number |
| Query.Params | src/http.rs:70-89 | the buffer loop that pushes '?' before the first present fragment and '&' before later ones yields the query string: '?' and the present fragments joined by '&', or empty |
| Query.PresentSnoc | src/http.rs:73-86 | appending a parameter adds its fragment to the present ones exactly when it is present |
| Query.JoinWithSnoc | src/http.rs:78-82 | appending to a non-empty join adds the separator and the new fragment |
| Query.QueryStringSnoc | src/http.rs:73-86 | one more parameter leaves the string unchanged when absent, starts it with '?' when it is the first present one, and adds '&' and the fragment otherwise |
| Query.PresentEmpty | src/http.rs:48 | no fragment is present exactly when every parameter is absent |
| Query.QueryStringEmptyIffAllAbsent | src/http.rs:48 | the string is empty exactly when no parameter is present, and otherwise starts with '?' |
| Query.JoinWithLength | src/http.rs:78-82 | a join of n fragments is n-1 separators longer than the fragments together |
| Query.QueryStringLength | src/http.rs:70-89 | the string has one separator ('?' or '&') per present fragment plus the fragments |
| Query.ParamsExamples | src/http.rs:54-59 | `params` of the empty list and of `[None]` is empty; of one fragment is '?' and the fragment |
| Query.QueryStringOfPair | src/http.rs:70-89 | the four shapes of a two-parameter string, as used for `from` and `size` |
| Query.ParamsAbsentExamples | src/http.rs:60-65 | an absent parameter before or after a fragment is skipped |
| Query.ParamsPairExample | src/http.rs:66-68 | two fragments are joined by '&' after '?' |
| Query.IndexOf | src/http/mod.rs:21-26 | the index of the first occurrence, or the length when there is none |
| Query.IndexOfConcat | src/http/mod.rs:21-26 | in `key=value` with no '=' in the key, the first '=' is right after the key |
| Query.RemoveTrailingSlash | src/utils.rs:12-18 | the result is a prefix of the input, one character shorter exactly when the input ends with '/' |
| Query.RemoveTrailingSlashCases | src/http.rs:102-108 | with a trailing slash, the result plus '/' is the input; without one, the input is returned unchanged |
| Query.RemoveTrailingSlashTwice | src/http/mod.rs:85-91 | applying it twice is applying it once plus at most one more slash; it is not idempotent |
| Query.RemoveTrailingSlashExamples | src/utils.rs:24-46 | the two cases of the unit test, plus `"x//"` becoming `"x/"` |
| Decimal.Digits | src/http.rs:40 | the decimal digits of a natural number (Rust's `Display` for integers), with no leading zero |
| Decimal.Decimal | src/client.rs:87-93 | a signed decimal numeral, with a leading '-' exactly for negatives |
| Decimal.DigitsValueOfDigits | src/client.rs:87-93 | the digits read back as the number they spell |
| Decimal.DigitRunOfDigits | src/client.rs:87-93 | a numeral followed by a non-digit is read up to its end |
| Decimal.ReadIntDecimal | src/client.rs:87-93 | a numeral followed by a non-digit (or nothing) reads back as its number and what follows |
| Decimal.DecimalInjective | src/client.rs:87-93 | distinct ids have distinct numerals |
| Wire.OfStrings | src/client.rs:264 | a `Vec<String>` is written as an array of strings, element by element |
| Wire.OfStringMap | src/client.rs:250 | a `HashMap<String, String>` is written as an object with the same keys and string values |
| Wire.OfOptStringMap | src/client.rs:266 | a map with optional values is written with the same keys, a `None` as null |
| Wire.OfList | src/client.rs:217 | a vector of records is written element by element |
| Wire.Written | src/client.rs:225-251 | a field marked `skip_serializing_if = "Option::is_none"` is written exactly when present |
| Wire.AsI64 | src/client.rs:259 | an `i64` reads only from a number in the 64-bit signed range |
| Wire.AsString | src/client.rs:260 | a `String` reads only from a string |
| Wire.AsStrings | src/client.rs:264 | a `Vec<String>` reads exactly from an array of strings, element by element |
| Wire.AsStringMap | src/client.rs:250 | a `HashMap<String, String>` reads exactly from an object of strings, with the same keys |
| Wire.AsOptStringMap | src/client.rs:266 | a map with optional values reads exactly from an object of strings or nulls, with the same keys |
| Wire.DecodeAll | src/client.rs:217 | a vector reads when every element reads, element by element |
| Wire.Optional | src/client.rs:259-266 | an `Option` field is `None` when its key is missing or null, and otherwise reads from the field's value |
| Wire.Required | src/client.rs:224 | a non-optional field is an error when its key is missing and otherwise reads from its value |
| Wire.OptionalIgnoresOtherKeys | src/client.rs:256-267 | an optional field does not depend on other keys |
| Wire.I64RoundTrip | src/client.rs:259 | an `i64` reads back from what it writes |
| Wire.StringsRoundTrip | src/client.rs:264 | a `Vec<String>` reads back from what it writes |
| Wire.StringMapRoundTrip | src/client.rs:250 | a string map reads back from what it writes |
| Wire.OptStringMapRoundTrip | src/client.rs:266 | a map with optional values reads back from what it writes |
| Wire.ListRoundTrip | src/client.rs:217 | a vector reads back when each element does |
| Wire.WrittenRoundTrip | src/client.rs:225-251 | a skipped-when-`None` field reads back as the same `Option` |
| Wire.OptionRoundTrip | src/client.rs:259-266 | a field written as null-or-value reads back as the same `Option` |
| Naming.LowerFirst | src/client.rs:408 | only the first letter changes, and the length is kept |
| Naming.PascalHasNoUnderscore | src/client.rs:222 | the rename rule removes every underscore |
| Naming.PascalWord | src/client.rs:222 | a word before the next underscore is capitalized and kept |
| Naming.CamelFieldOfTwo | src/client.rs:222 | a snake_case field with a lower-case first word keeps that word and capitalizes the rest |
| Naming.CamelFieldOfOne | src/client.rs:222 | a one-word lower-case field keeps its name |
| Naming.PascalOfLast | src/client.rs:408 | the last word is capitalized |
| Naming.PascalOfNext | src/client.rs:222 | each word before an underscore is capitalized and the rest follows |
| Naming.PascalNext | src/client.rs:222 | the same for a lower-case word |
| Naming.Capitalized | src/client.rs:222 | only the first letter of a word changes |
| Naming.PascalOfSnake | src/client.rs:222 | the PascalCase of words joined by '_' is the words capitalized and concatenated |
| Naming.CamelOfSnake | src/client.rs:222 | serde's camelCase of a snake_case field is its first word followed by the others capitalized |
| LivyTypes.SessionStateTagIsCamelCase | src/client.rs:406-418 | each session state is tagged with its variant name under serde's camelCase rule (`notStarted`, `shuttingDown`, ...) |
| LivyTypes.SessionStateTagSpelledFirst | src/client.rs:410-413 | the camelCase tags of the first four session states |
| LivyTypes.SessionStateTagSpelledLast | src/client.rs:414-417 | the camelCase tags of the last four session states |
| LivyTypes.SessionKindTagIsCamelCase | src/client.rs:420-428 | each session kind is tagged with its camelCase variant name |
| LivyTypes.StatementStateTagIsCamelCase | src/client.rs:430-440 | each statement state is tagged with its camelCase variant name |
| LivyTypes.StatementStateTagSpelledFirst | src/client.rs:434-436 | the camelCase tags of the first three statement states |
| LivyTypes.StatementStateTagSpelledLast | src/client.rs:437-439 | the camelCase tags of the last three statement states |
| LivyTypes.ParseSessionState | src/client.rs:406-418 | a tag parses only to the state it names |
| LivyTypes.ParseSessionKind | src/client.rs:420-428 | a tag parses only to the kind it names |
| LivyTypes.ParseStatementState | src/client.rs:430-440 | a tag parses only to the state it names |
| LivyTypes.SessionStateTagRoundTrip | src/client.rs:406-418 | every session state's tag parses back to it |
| LivyTypes.SessionKindTagRoundTrip | src/client.rs:420-428 | every session kind's tag parses back to it |
| LivyTypes.StatementStateTagRoundTrip | src/client.rs:430-440 | every statement state's tag parses back to it |
| LivyTypes.TagsDistinct | src/client.rs:406-440 | distinct variants have distinct tags, in each of the three enumerations |
| LivyTypes.DecodeSessionState | src/client.rs:406-418 | of the forms modelled (tag strings, not the one-key object form of a unit variant), a value reads as a session state only if it is that state's tag |
| LivyTypes.DecodeSessionKind | src/client.rs:420-428 | of the forms modelled (tag strings, not the one-key object form), a value reads as a session kind only if it is that kind's tag |
| LivyTypes.DecodeStatementState | src/client.rs:430-440 | of the forms modelled (tag strings, not the one-key object form), a value reads as a statement state only if it is that state's tag |
| LivyTypes.EnumRoundTrips | src/client.rs:406-440 | each enumeration reads back from what it writes |
| LivyTypes.SpecFieldWords | src/client.rs:223-252 | each request field's Rust name is a sequence of lower-case words |
| LivyTypes.SpecFieldOfKey | src/client.rs:223-252 | a JSON key names at most the field whose key it is |
| LivyTypes.SpecFieldOfKeyInverse | src/client.rs:223-252 | every field's key names that field |
| LivyTypes.SpecKeyInjective | src/client.rs:223-252 | two fields share a key exactly when they are the same field |
| LivyTypes.SpecKeySpelled | src/client.rs:221-253 | each key is serde's camelCase of the field's words |
| LivyTypes.SpecKeySpelledPart0 | src/client.rs:224 | the same, for `kind` (and `file`, `proxyUser`, `className` at lines 351-355) |
| LivyTypes.SpecKeySpelledPart1 | src/client.rs:357-363 | the same, for `args`, `jars`, `pyFiles` and `files` |
| LivyTypes.SpecKeySpelledPart2 | src/client.rs:234-240 | the same, for `driverMemory`, `driverCores`, `executorMemory` and `executorCores` |
| LivyTypes.SpecKeySpelledPart3 | src/client.rs:242-248 | the same, for `numExecutors`, `archives`, `queue` and `name` |
| LivyTypes.SpecKeySpelledPart4 | src/client.rs:250-252 | the same, for `conf` and `heartbeatTimeoutInSecond` |
| LivyTypes.SpecKeyIsCamelCase | src/client.rs:221-253 | each key is serde's camelCase of the field's snake_case name |
| LivyTypes.SpecKeysInjective | src/client.rs:221-253 | no two fields share a key |
| LivyTypes.FieldsObject | src/client.rs:221-253 | the object holds exactly the keys of the present fields, each with its field's value |
| LivyTypes.SessionFieldValue | src/client.rs:221-253 | a session request writes only fields of `NewSessionRequest` |
| LivyTypes.EncodeNewSessionRequest | src/client.rs:221-253 | the body of `create_session` has exactly the keys of the present fields, with their values |
| LivyTypes.DecodeNewSessionRequest | src/client.rs:221-253 | of the JSON forms modelled (objects, not serde's positional array form), a body that is not an object, or that lacks the required `kind`, is an error |
| LivyTypes.NewSessionRequestPart0ReadsBack | src/client.rs:225-234 | the first group of optional fields reads back from the body |
| LivyTypes.NewSessionRequestPart1ReadsBack | src/client.rs:235-244 | the second group of optional fields reads back from the body |
| LivyTypes.NewSessionRequestPart2ReadsBack | src/client.rs:245-252 | the third group of optional fields reads back from the body |
| LivyTypes.NewSessionRequestRoundTrip | src/client.rs:221-253 | a session request reads back from the body it writes |
| LivyTypes.BatchFieldValue | src/client.rs:348-382 | a batch request writes only fields of `NewBatchRequest` |
| LivyTypes.EncodeNewBatchRequest | src/client.rs:348-382 | the body of `create_batch` has exactly the keys of the present fields, with their values |
| LivyTypes.DecodeNewBatchRequest | src/client.rs:348-382 | of the JSON forms modelled (objects, not serde's positional array form), a body that is not an object, or that lacks the required `file`, is an error |
| LivyTypes.NewBatchRequestPart0ReadsBack | src/client.rs:352-361 | the first group of optional fields reads back from the body |
| LivyTypes.NewBatchRequestPart1ReadsBack | src/client.rs:362-371 | the second group of optional fields reads back from the body |
| LivyTypes.NewBatchRequestPart2ReadsBack | src/client.rs:372-381 | the third group of optional fields reads back from the body |
| LivyTypes.NewBatchRequestRoundTrip | src/client.rs:348-382 | a batch request reads back from the body it writes |
| LivyTypes.DescribesOne | src/client.rs:221-253 | an object describing a single present field is the one-key object |
| LivyTypes.MinimalSessionRequestWritesKind | src/client.rs:223-226 | a request with only a kind writes only `kind` |
| LivyTypes.MinimalBatchRequestWritesFile | src/client.rs:350-353 | a request with only a file writes only `file` |
| LivyTypes.MinimalSessionRequestBody | src/client.rs:223-226 | a request with only a kind is the body `{"kind": <tag>}` |
| LivyTypes.MinimalBatchRequestBody | src/client.rs:350-353 | a request with only a file is the body `{"file": <file>}` |
| LivyTypes.SpecsKeepToTheirFields | src/client.rs:221-382 | a session body never has `file`, `className` or `args`, and a batch body never has `kind` or `heartbeatTimeoutInSecond` |
| LivyTypes.SessionSpecLacksBatchKeys | src/client.rs:221-253 | the same, for any object with a session request's keys |
| LivyTypes.BatchSpecLacksSessionKeys | src/client.rs:348-382 | the same, for any object with a batch request's keys |
| LivyTypes.EncodeRunStatementRequest | src/client.rs:301-304 | the body of `run_statement` is the one-key object `code` |
| LivyTypes.DecodeRunStatementRequest | src/client.rs:301-304 | of the JSON forms modelled (objects, not the positional array form), a statement request reads exactly from an object whose `code` is a string |
| LivyTypes.RunStatementRequestRoundTrip | src/client.rs:301-304 | a statement request reads back from the body it writes |
| Responses.EncodeSession | src/client.rs:256-267 | writes an object with exactly the camelCase keys of `Session` |
| Responses.DecodeSession | src/client.rs:256-267 | of the JSON forms modelled (objects, not serde's positional array form), a value that is not an object is an error |
| Responses.SessionRoundTrip | src/client.rs:256-267 | a `Session` reads back from what it writes |
| Responses.SessionFromEmptyObject | src/client.rs:256-267 | every field is optional: `{}` reads as the record with every field `None` |
| Responses.SessionIgnoresUnknownKeys | src/client.rs:256-267 | a key the record does not name does not change what it reads |
| Responses.OfSessions | src/client.rs:217 | a vector of records is an array of their objects, element by element |
| Responses.AsSessions | src/client.rs:217 | an array reads when each element reads, element by element |
| Responses.SessionsListRoundTrip | src/client.rs:217 | a vector of records reads back from what it writes |
| Responses.EncodeSessions | src/client.rs:212-218 | writes an object with exactly `from`, `total` and `sessions` |
| Responses.DecodeSessions | src/client.rs:212-218 | of the JSON forms modelled (objects, not serde's positional array form), a value that is not an object is an error |
| Responses.SessionsRoundTrip | src/client.rs:212-218 | a `Sessions` reads back from what it writes |
| Responses.SessionsFromEmptyObject | src/client.rs:212-218 | every field is optional: `{}` reads as the record with every field `None` |
| Responses.SessionsIgnoresUnknownKeys | src/client.rs:212-218 | a key the record does not name does not change what it reads |
| Responses.EncodeSessionStateOnly | src/client.rs:270-275 | writes an object with exactly `id` and `state` |
| Responses.DecodeSessionStateOnly | src/client.rs:270-275 | of the JSON forms modelled (objects, not serde's positional array form), a value that is not an object is an error |
| Responses.SessionStateOnlyRoundTrip | src/client.rs:270-275 | a `SessionStateOnly` reads back from what it writes |
| Responses.SessionStateOnlyFromEmptyObject | src/client.rs:270-275 | every field is optional: `{}` reads as the record with every field `None` |
| Responses.SessionStateOnlyIgnoresUnknownKeys | src/client.rs:270-275 | a key the record does not name does not change what it reads |
| Responses.EncodeMessage | src/client.rs:278-281 | writes an object with exactly the single key `msg` (kill and cancel results) |
| Responses.DecodeMessage | src/client.rs:278-281 | of the JSON forms modelled (objects, not serde's positional array form), a value that is not an object is an error |
| Responses.MessageRoundTrip | src/client.rs:278-281 | a `Message` reads back from what it writes |
| Responses.MessageFromEmptyObject | src/client.rs:278-281 | every field is optional: `{}` reads as the record with every field `None` |
| Responses.MessageIgnoresUnknownKeys | src/client.rs:278-281 | a key the record does not name does not change what it reads |
| Responses.EncodeLogPage | src/client.rs:284-291 | writes an object with exactly `id`, `from`, `total` and `log` (`SessionLog`, `BatchLog`) |
| Responses.DecodeLogPage | src/client.rs:284-291 | of the JSON forms modelled (objects, not serde's positional array form), a value that is not an object is an error |
| Responses.LogPageRoundTrip | src/client.rs:284-291 | a `LogPage` reads back from what it writes |
| Responses.LogPageFromEmptyObject | src/client.rs:284-291 | every field is optional: `{}` reads as the record with every field `None` |
| Responses.LogPageIgnoresUnknownKeys | src/client.rs:284-291 | a key the record does not name does not change what it reads |
| Responses.EncodeStatementOutput | src/client.rs:315-320 | writes an object with exactly `status`, `execution_count` and `data` |
| Responses.DecodeStatementOutput | src/client.rs:315-320 | of the JSON forms modelled (objects, not serde's positional array form), a value that is not an object is an error |
| Responses.StatementOutputRoundTrip | src/client.rs:315-320 | a `StatementOutput` reads back from what it writes |
| Responses.StatementOutputFromEmptyObject | src/client.rs:315-320 | every field is optional: `{}` reads as the record with every field `None` |
| Responses.StatementOutputIgnoresUnknownKeys | src/client.rs:315-320 | a key the record does not name does not change what it reads |
| Responses.EncodeStatement | src/client.rs:307-312 | writes an object with exactly `id`, `state` and `output` |
| Responses.DecodeStatement | src/client.rs:307-312 | of the JSON forms modelled (objects, not serde's positional array form), a value that is not an object is an error |
| Responses.StatementRoundTrip | src/client.rs:307-312 | a `Statement` reads back from what it writes |
| Responses.StatementFromEmptyObject | src/client.rs:307-312 | every field is optional: `{}` reads as the record with every field `None` |
| Responses.StatementIgnoresUnknownKeys | src/client.rs:307-312 | a key the record does not name does not change what it reads |
| Responses.OfStatements | src/client.rs:297 | a vector of records is an array of their objects, element by element |
| Responses.AsStatements | src/client.rs:297 | an array reads when each element reads, element by element |
| Responses.StatementsListRoundTrip | src/client.rs:297 | a vector of records reads back from what it writes |
| Responses.EncodeStatements | src/client.rs:294-298 | writes an object with exactly `total_statements` and `statements` |
| Responses.DecodeStatements | src/client.rs:294-298 | of the JSON forms modelled (objects, not serde's positional array form), a value that is not an object is an error |
| Responses.StatementsRoundTrip | src/client.rs:294-298 | a `Statements` reads back from what it writes |
| Responses.StatementsFromEmptyObject | src/client.rs:294-298 | every field is optional: `{}` reads as the record with every field `None` |
| Responses.StatementsIgnoresUnknownKeys | src/client.rs:294-298 | a key the record does not name does not change what it reads |
| Responses.EncodeBatch | src/client.rs:337-345 | writes an object with exactly the camelCase keys of `Batch` |
| Responses.DecodeBatch | src/client.rs:337-345 | of the JSON forms modelled (objects, not serde's positional array form), a value that is not an object is an error |
| Responses.BatchRoundTrip | src/client.rs:337-345 | a `Batch` reads back from what it writes |
| Responses.BatchFromEmptyObject | src/client.rs:337-345 | every field is optional: `{}` reads as the record with every field `None` |
| Responses.BatchIgnoresUnknownKeys | src/client.rs:337-345 | a key the record does not name does not change what it reads |
| Responses.OfBatches | src/client.rs:333 | a vector of records is an array of their objects, element by element |
| Responses.AsBatches | src/client.rs:333 | an array reads when each element reads, element by element |
| Responses.BatchesListRoundTrip | src/client.rs:333 | a vector of records reads back from what it writes |
| Responses.EncodeBatches | src/client.rs:329-334 | writes an object with exactly `from`, `total` and `sessions` |
| Responses.DecodeBatches | src/client.rs:329-334 | of the JSON forms modelled (objects, not serde's positional array form), a value that is not an object is an error |
| Responses.BatchesRoundTrip | src/client.rs:329-334 | a `Batches` reads back from what it writes |
| Responses.BatchesFromEmptyObject | src/client.rs:329-334 | every field is optional: `{}` reads as the record with every field `None` |
| Responses.BatchesIgnoresUnknownKeys | src/client.rs:329-334 | a key the record does not name does not change what it reads |
| Responses.EncodeBatchStateOnly | src/client.rs:385-389 | writes an object with exactly `id` and `state` |
| Responses.DecodeBatchStateOnly | src/client.rs:385-389 | of the JSON forms modelled (objects, not serde's positional array form), a value that is not an object is an error |
| Responses.BatchStateOnlyRoundTrip | src/client.rs:385-389 | a `BatchStateOnly` reads back from what it writes |
| Responses.BatchStateOnlyFromEmptyObject | src/client.rs:385-389 | every field is optional: `{}` reads as the record with every field `None` |
| Responses.BatchStateOnlyIgnoresUnknownKeys | src/client.rs:385-389 | a key the record does not name does not change what it reads |
| Transport.VerbOf | src/http.rs:137-141 | GET and POST use their own switches and DELETE a custom request, one verb each |
| Transport.Perform | src/http.rs:136-160 | the handle gets the verb, the URL, the authentication as given and two headers, the first the JSON content type |
| Transport.PerformHeaders | src/http.rs:145-157 | the headers are `Content-Type: application/json` and `X-Requested-By: x`; negotiate and user name are set exactly when given |
| Transport.PerformHeadersIndependentOfVerb | src/http.rs:154-157 | the headers and URL do not depend on the verb |
| Transport.InvalidStatus | src/http.rs:123 | the status error starts with `invalid status code: ` |
| Transport.Send | src/http.rs:112-134 | a transport failure passes on its message; only status 200 reads the body; success is exactly a 200 with a body that parses and decodes |
| Transport.SendIgnoresBodyOnBadStatus | src/http.rs:120-124 | a status other than 200 fails the same way whatever the body and the expected type |
| Transport.InvalidStatusNamesCode | src/http.rs:123 | the number after the prefix reads back as the status code |
| Transport.InvalidStatusInjective | src/http.rs:123 | distinct codes give distinct messages |
| Transport.SendOkIsDecode | src/http.rs:126-133 | a 200 answer that parses is the decoder's verdict on its body |
| Transport.InvalidStatusExample | src/http.rs:123 | status 404 gives `invalid status code: 404` |
| LivyClient.New | src/client.rs:30-36 | the URL loses one trailing slash if it has one and is kept otherwise; the authentication settings are kept |
| LivyClient.NewExamples | src/client.rs:447-483 | the three cases of `test_client_new` |
| LivyClient.FromSizeBoth | src/client.rs:67-70 | with both bounds the query is `?from=<from>&size=<size>` |
| LivyClient.FromSizeFromOnly | src/client.rs:67-70 | with only `from` it is `?from=<from>` |
| LivyClient.FromSizeSizeOnly | src/client.rs:67-70 | with only `size` it is `?size=<size>` |
| LivyClient.FromSizeCases | src/client.rs:112-117 | the four shapes of the paging query, empty when neither bound is given |
| LivyClient.Path | src/client.rs:66-208 | every operation's path starts with '/' |
| LivyClient.MethodAndBody | src/client.rs:47-61 | GET sends no body; DELETE is exactly the two kills; a body is sent exactly by the three creating operations, as a POST of an object; the only POST without a body is cancelling a statement |
| LivyClient.SetupFor | src/http.rs:136-160 | the curl handle of an operation gets its verb, the request URL, the client's authentication and the same two headers for every operation |
| LivyClient.RequestFor | src/client.rs:39-45 | the request goes to the client's URL followed by the operation's path, with its verb, body and the client's authentication |
| LivyClient.DecimalExamples | src/client.rs:87-93 | ids are written in decimal |
| LivyClient.ListPathExamples | src/client.rs:66-73 | listing without bounds asks for `/sessions` and `/batches` |
| LivyClient.PagedPathExample | src/client.rs:66-73 | `get_sessions(Some(0), Some(10))` asks for `/sessions?from=0&size=10` |
| LivyClient.SizedLogPathExample | src/client.rs:201-208 | `get_batch_log(3, None, Some(5))` asks for `/batches/3/log?size=5` |
| LivyClient.CancelPathExample | src/client.rs:148-150 | `cancel_statement(1, 2)` posts to `/sessions/1/statements/2/cancel` |
| LivyClient.DecodeAs | src/client.rs:66-208 | a reply decoded for an operation always has that operation's result type |
| LivyClient.DecodeAsOfEncode | src/client.rs:211-404 | every reply reads back, as its own type, from what it writes |
| LivyClient.SessionRepliesReadBack | src/client.rs:212-275 | the same, for the session list, session and session state replies |
| LivyClient.StatementRepliesReadBack | src/client.rs:278-326 | the same, for messages, log pages, statements and statement lists |
| LivyClient.BatchRepliesReadBack | src/client.rs:329-389 | the same, for the batch list, batch and batch state replies |
| LivyClient.Call | src/client.rs:39-45 | an operation succeeds exactly when the server answers 200 with a body that decodes as the operation's result type |
| LivyClient.CallReturnsServedReply | src/client.rs:39-45 | when the server answers 200 with a reply of the right type, that reply is the result |
| LivyClient.CallFailsOnBadStatus | src/http.rs:120-124 | any other status is the invalid-status error, whatever the body |
| ClientRoutes.StartsWithConcat | src/client.rs:66-208 | a path built from a prefix starts with it, and what follows is the rest |
| ClientRoutes.ReadIdOfId | src/client.rs:87-93 | an id in a path reads back, up to the next '/', '?' or the end |
| ClientRoutes.ReadLastIdOfId | src/client.rs:140-142 | an id that ends the path reads back |
| ClientRoutes.ReadFromPrefix | src/client.rs:67-70 | a query that starts with `?from=` is split after the prefix |
| ClientRoutes.ReadFromSizeFrom | src/client.rs:67-70 | a query that starts with `?from=` reads the `from` bound first |
| ClientRoutes.ReadAfterFromBoth | src/client.rs:67-70 | `<from>&size=<size>` reads back as both bounds |
| ClientRoutes.ReadBothBounds | src/client.rs:67-70 | the query with both bounds reads back as them |
| ClientRoutes.ReadFromBound | src/client.rs:67-70 | the query with only `from` reads back as it |
| ClientRoutes.ReadSizeBound | src/client.rs:67-70 | the query with only `size` reads back as it |
| ClientRoutes.ReadFromSizeOfFromSize | src/client.rs:112-117 | every paging query reads back as the bounds that built it |
| ClientRoutes.BatchesPath | src/client.rs:156-208 | a path under `/batches` is routed by the batch routes |
| ClientRoutes.NotUnderSessions | src/client.rs:156-208 | a path under `/batches` is not under `/sessions` |
| ClientRoutes.SessionItemPath | src/client.rs:87-150 | `/sessions/<id><tail>` is routed by the route of that session |
| ClientRoutes.BatchItemPath | src/client.rs:177-208 | `/batches/<id><tail>` is routed by the route of that batch |
| ClientRoutes.ItemPath | src/client.rs:87-208 | an item path splits into collection, id and tail |
| ClientRoutes.SessionListRoutes | src/client.rs:66-80 | listing and creating sessions route back to themselves |
| ClientRoutes.BatchListRoutes | src/client.rs:156-170 | listing and creating batches route back to themselves |
| ClientRoutes.SessionTailRoutes | src/client.rs:87-150 | each operation on one session routes back from its tail |
| ClientRoutes.StatementTailRoutes | src/client.rs:140-150 | a statement path, with or without `/cancel`, splits into its id and suffix |
| ClientRoutes.SessionPathShape | src/client.rs:87-150 | each operation on one session has the path `/sessions/<id><tail>` |
| ClientRoutes.SessionItemRoutes | src/client.rs:87-150 | each operation on one session routes back to itself |
| ClientRoutes.BatchTailRoutes | src/client.rs:177-208 | each operation on one batch routes back from its tail |
| ClientRoutes.BatchItemRoutes | src/client.rs:177-208 | each operation on one batch routes back to itself |
| ClientRoutes.RequestRoutesBack | src/client.rs:39-208 | the verb, path and body of every request determine its operation: the router recovers it |
| ClientRoutes.RequestForInjective | src/client.rs:39-208 | two different operations never send the same request |
| LivyV030.New | src/v0_3_0.rs:30-36 | the older client trims one trailing slash and keeps the authentication settings, as the current one does |
| LivyV030.NewExamples | src/v0_3_0.rs:794-830 | the three cases of its `test_client_new` |
| LivyV030.MethodAndBody | src/v0_3_0.rs:47-60 | DELETE is exactly `delete_session`; GET sends no body; the three creating operations post an object; cancelling is the only POST without a body |
| LivyV030.RequestFor | src/v0_3_0.rs:39-45 | the request goes to the client's URL followed by the path, with the verb, body and authentication |
| LivyV030.SameRequestAsCurrent | src/v0_3_0.rs:66-179 | each older operation sends the same request as its current counterpart (`delete_session` as `kill_session`) |
| LivyV030.NoBatchStateKillOrLog | src/v0_3_0.rs:156-179 | the older client has no batch state, kill or log operation |
| LivyV030.RequestForInjective | src/v0_3_0.rs:66-179 | two different older operations never send the same request |
| LivyV030.Call | src/v0_3_0.rs:39-45 | a successful result has the operation's result type |
| LivyV030.SameResultTypeAsCurrent | src/v0_3_0.rs:66-179 | each older operation expects the same record as its current counterpart |
| LivyV030.SameCallAsCurrent | src/v0_3_0.rs:39-179 | each older operation gives the same result as its current counterpart on any server |
| LivyV030.SessionStateReadsExactlyTags | src/v0_3_0.rs:552-563 | of the forms modelled (tag strings, not the one-key object form), a value reads as a session state exactly when it is one of the camelCase tags |
| LivyV030.StatementStateReadsExactlyTags | src/v0_3_0.rs:576-585 | of the forms modelled (tag strings, not the one-key object form), a value reads as a statement state exactly when it is one of the camelCase tags |
| LivyV030.SessionGetters | src/v0_3_0.rs:259-296 | each accessor returns the field as it was read from its key |
| LivyV030.SessionsGetters | src/v0_3_0.rs:193-205 | each accessor returns the field as it was read from its key |
| LivyV030.SessionStateOnlyGetters | src/v0_3_0.rs:309-316 | each accessor returns the field as it was read from its key |
| LivyV030.MessageGetters | src/v0_3_0.rs:327-329 | each accessor returns the field as it was read from its key |
| LivyV030.LogPageGetters | src/v0_3_0.rs:344-360 | each accessor returns the field as it was read from its key |
| LivyV030.StatementOutputGetters | src/v0_3_0.rs:423-435 | each accessor returns the field as it was read from its key |
| LivyV030.StatementGetters | src/v0_3_0.rs:398-410 | each accessor returns the field as it was read from its key |
| LivyV030.StatementsGetters | src/v0_3_0.rs:372-379 | each accessor returns the field as it was read from its key |
| LivyV030.BatchGetters | src/v0_3_0.rs:489-511 | each accessor returns the field as it was read from its key |
| LivyV030.BatchesGetters | src/v0_3_0.rs:461-473 | each accessor returns the field as it was read from its key |

## Left out

- Network I/O. The curl handle, the request's transmission and the reading of the response code are not modelled. The server is the `network` parameter of `Call`, and `perform` returns the `Setup` value it would apply.
- JSON as text. `String::from_utf8_lossy` and `serde_json::from_str` are not modelled: an `Outcome` carries the already-parsed body or the parse error's message. There are no floating-point numbers and no duplicate keys; objects are maps, so `HashMap` ordering does not arise.
- Two further JSON forms that serde's derived readers accept.
  - A struct also reads from a JSON array, field by field in declaration order: `[7, "idle"]` is a `SessionStateOnly`.
  - A unit variant also reads from the one-key object form: `{"idle": null}` is a session state.
  - The model's readers accept only objects for structs and only tag strings for enumerations. The decoder rows state their error cases and their "exactly" among those modelled forms only.
- Error texts of curl and serde. These are carried as the strings the transport or the decoder gives. Only the text of the invalid-status error is modelled exactly.
- SPNEGO. What negotiate authentication does on the wire is not modelled, only whether it and the user name are set on the handle.
- `src/http/client.rs` (a second, hyper-based HTTP client) and `src/lib.rs` (module declarations) are not part of this model. `src/http/mod.rs` contributes `XRequestedBy`, `param`, `params` and `remove_trailing_slash`.
- Query.Param: the value is an integer, the only type the clients pass; other `Display` types are not modelled.
- LivyClient.Path: the contract states only the leading '/'. The full path of each operation is pinned by the example lemmas and, for all inputs, by `ClientRoutes.RequestRoutesBack`.
- LivyV030.Call: its contract states only the result type. Its full behaviour is `LivyV030.SameCallAsCurrent` together with `LivyClient.Call`.
- LivyTypes.DecodeNewSessionRequest: the contract states only the two error cases (not an object, `kind` missing). What it reads is `LivyTypes.NewSessionRequestRoundTrip`.
- LivyTypes.DecodeNewBatchRequest: the contract states only the two error cases (not an object, `file` missing). What it reads is `LivyTypes.NewBatchRequestRoundTrip`.
- Responses.DecodeSession: the contract states only the non-object error. What it reads is `Responses.SessionRoundTrip`, `Responses.SessionFromEmptyObject` and `Responses.SessionIgnoresUnknownKeys`.
- Responses.DecodeSessions: the contract states only the non-object error. What it reads is `Responses.SessionsRoundTrip`, `Responses.SessionsFromEmptyObject` and `Responses.SessionsIgnoresUnknownKeys`.
- Responses.DecodeSessionStateOnly: the contract states only the non-object error. What it reads is `Responses.SessionStateOnlyRoundTrip`, `Responses.SessionStateOnlyFromEmptyObject` and `Responses.SessionStateOnlyIgnoresUnknownKeys`.
- Responses.DecodeMessage: the contract states only the non-object error. What it reads is `Responses.MessageRoundTrip`, `Responses.MessageFromEmptyObject` and `Responses.MessageIgnoresUnknownKeys`.
- Responses.DecodeLogPage: the contract states only the non-object error. What it reads is `Responses.LogPageRoundTrip`, `Responses.LogPageFromEmptyObject` and `Responses.LogPageIgnoresUnknownKeys`.
- Responses.DecodeStatementOutput: the contract states only the non-object error. What it reads is `Responses.StatementOutputRoundTrip`, `Responses.StatementOutputFromEmptyObject` and `Responses.StatementOutputIgnoresUnknownKeys`.
- Responses.DecodeStatement: the contract states only the non-object error. What it reads is `Responses.StatementRoundTrip`, `Responses.StatementFromEmptyObject` and `Responses.StatementIgnoresUnknownKeys`.
- Responses.DecodeStatements: the contract states only the non-object error. What it reads is `Responses.StatementsRoundTrip`, `Responses.StatementsFromEmptyObject` and `Responses.StatementsIgnoresUnknownKeys`.
- Responses.DecodeBatch: the contract states only the non-object error. What it reads is `Responses.BatchRoundTrip`, `Responses.BatchFromEmptyObject` and `Responses.BatchIgnoresUnknownKeys`.
- Responses.DecodeBatches: the contract states only the non-object error. What it reads is `Responses.BatchesRoundTrip`, `Responses.BatchesFromEmptyObject` and `Responses.BatchesIgnoresUnknownKeys`.
- Responses.DecodeBatchStateOnly: the contract states only the non-object error. What it reads is `Responses.BatchStateOnlyRoundTrip`, `Responses.BatchStateOnlyFromEmptyObject` and `Responses.BatchStateOnlyIgnoresUnknownKeys`.
- LivyV030 getters (`Sessions::from` and the rest): an accessor returns a field of the record, which in the model is the datatype's field itself. The `...Getters` lemmas state which key each field was read from.
- LivyV030 state enumerations: the older `SessionState` and `StatementState` derive only `Deserialize`. The model's encoders for them are used only to state which values they read.
