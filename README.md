# QuickTypeNode conversion core, modelled in Dafny

QuickTypeNode is a small HTTP service. It turns a JSON sample or a JSON Schema into type declarations in a chosen programming language. The type inference and code rendering are done by the external quicktype engine. This project models the decision logic around that engine:

- **The target-language table** (`quick_type.dfy`). It maps a language identifier to an engine binding and a fixed set of renderer options. There are eight recognised identifiers: Kotlin, Dart, Java, TypeScript, C++, Swift, Objective-C and Go. Any other string gets the Kotlin entry. The input data is passed through unchanged.
- **Post-processing of the generated lines** (`quick_type.dfy`, with the string operations in `text.dfy`). No lines give the empty string. Otherwise the lines are joined with newlines. For the exact identifier `Dart`, every `Map<String, dynamic>` is then replaced by `Map<dynamic, dynamic>`, scanning left to right with no overlapping matches.
- **The two conversions** (`quick_type.dfy`): from one JSON sample, and from one JSON Schema. Each is composed from the table, an abstract engine and the post-processing.
- **Request dispatch and the reply envelope** (`server.dfy`). `conversionType` is compared exactly against `json` and `jsonSchema`:
  - either one gives `{retCode: 0, message: 转换类型成功, info}`;
  - any other value gives `{retCode: -1, message: 请正确输入转换类型}` with no `info`, and no conversion runs.

The engine is the foreign quicktype library. It is modelled as a function value of type `Engine = Config -> seq<string>`: a configuration goes in and generated source lines come out. The configuration holds the input data, the binding and the renderer options. Every property below holds for every engine.

Module `Text` holds the string operations the post-processing uses: `Join` (JavaScript `Array.prototype.join`) and `ReplaceAll` (`String.prototype.replace` with a global pattern that has no metacharacters). `Split` on one character is used only to state the inverse of `Join`.

## Model

| member | source | states |
|---|---|---|
| `QuickType.TargetLanguageOptions` | src/quicktype/quick_type.ts:88-188 | The result always carries the input data it was given, unchanged. For a recognised identifier, the chosen binding is the one listed under that identifier. Any other string selects the Kotlin binding, so the lookup never fails. |
| `QuickType.LookupFindsEveryBinding` | src/quicktype/quick_type.ts:91-175 | Each of the eight bindings is found under its own identifier. Two different bindings never share an identifier. |
| `QuickType.DeclaredRendererOptions` | src/quicktype/quick_type.ts:92-185 | The exact option keys and values of each entry. Dart: copy-with false, required-props false, null-safety true. Java: just-types true, array-type "list", acronym-style Original. TypeScript, C++, Swift, Objective-C and Go: only just-types true. Kotlin and every unrecognised string: only framework "just-types". |
| `QuickType.FallbackIsKotlinEntry` | src/quicktype/quick_type.ts:176-185 | Any identifier outside the table gets a configuration identical to the one for "Kotlin". |
| `QuickType.OptionsFollowBinding` | src/quicktype/quick_type.ts:91-185 | Two lookups that choose the same binding give the same renderer options. The fallback adds no options of its own. |
| `Text.Join` | src/quicktype/quick_type.ts:73 | No parts give "" and one part gives that part. Otherwise the result is exactly as long as all parts together plus one separator between each pair of neighbours. |
| `Text.JoinAppend` | src/quicktype/quick_type.ts:73 | Appending a part to a non-empty list appends the separator and then that part to the joined text. With the one-part case this fixes the joined text for every list of parts, including parts that contain the separator. |
| `Text.SplitJoinRoundTrip` | src/quicktype/quick_type.ts:73 | Joining a non-empty list of lines with a one-character separator loses nothing when no line contains the separator: splitting the joined text at the separator gives back the same lines. |
| `Text.ReplaceAll` | src/quicktype/quick_type.ts:75 | A text with no occurrence of the pattern is returned unchanged. |
| `Text.ReplaceAtFirstOccurrence` | src/quicktype/quick_type.ts:75 | The first occurrence of the pattern is replaced by the replacement. The text before it is kept unchanged, and the rewrite continues after the occurrence. Together with the row above, this fixes the result for every text. |
| `Text.NoOccurrenceAfterRewrite` | src/quicktype/quick_type.ts:75 | No occurrence of the pattern is left after the rewrite, whenever the replacement cannot form a new occurrence (`NonOverlapping`). |
| `Text.ReplaceAllIdempotent` | src/quicktype/quick_type.ts:75 | Under the same condition, rewriting a second time changes nothing. |
| `QuickType.DartRewriteIsNonOverlapping` | src/quicktype/quick_type.ts:75 | The Dart pair `Map<String, dynamic>` → `Map<dynamic, dynamic>` meets that condition. |
| `QuickType.ConversionResult` | src/quicktype/quick_type.ts:71-80 | No lines give "" for every language. For any identifier other than "Dart", the result is exactly the lines joined with "\n", even if it contains the strict map type. For "Dart" with at least one line, the result is the joined text with every `Map<String, dynamic>` replaced, and no `Map<String, dynamic>` remains. A joined text that has no strict map type is returned unchanged. |
| `QuickType.DartRewritesFirstStrictMap` | src/quicktype/quick_type.ts:73-75 | For "Dart", the first `Map<String, dynamic>` in the joined lines becomes `Map<dynamic, dynamic>`. The text before it is kept unchanged, and the rewrite continues after it. |
| `QuickType.DartPostProcessingIdempotent` | src/quicktype/quick_type.ts:75 | Applying the Dart rewrite again to the Dart result changes nothing. |
| `QuickType.LowerCaseDartNotRewritten` | src/quicktype/quick_type.ts:74-75 | The Dart check is case-sensitive. For "dart", a line with `Map<String, dynamic>` keeps it. For "Dart", the same line gets `Map<dynamic, dynamic>`. |
| `QuickType.QuickTypeByJSON` | src/quicktype/quick_type.ts:25-40 | Let `lines` be the engine's answer for the table's configuration over one sample (the given text, under the type name). No lines give "". For any language but "Dart", the code is exactly the lines joined with newlines. For "Dart", the code is that join with every strict map type rewritten, and no strict map type remains. |
| `QuickType.SampleConversionDependsOnlyOnItsConfig` | src/quicktype/quick_type.ts:25-40 | Two engines that give the same answer for that one configuration produce the same code. The engine is consulted on nothing else. |
| `QuickType.QuickTypeByJSONSchema` | src/quicktype/quick_type.ts:51-63 | The same as for the sample path, with `lines` the engine's answer for the table's configuration over one schema source (the given text, under the type name). |
| `QuickType.SchemaConversionDependsOnlyOnItsConfig` | src/quicktype/quick_type.ts:51-63 | Two engines that give the same answer for the schema path's one configuration produce the same code. |
| `Server.HandleConversion` | src/server.ts:28-48 | `retCode` is 0 if and only if the type is exactly "json" or "jsonSchema". A success carries the success message and an `info` field: the sample conversion's code for "json", the schema conversion's code for "jsonSchema". Every other type gives exactly `{retCode: -1, message: 请正确输入转换类型}` with no `info`. |
| `Server.UnsupportedTypeNeverConverts` | src/server.ts:43-48 | On a refused type the reply does not depend on the engine, so no conversion runs. Case variants such as "JSON" are refused. |
| `Server.EmptyEngineOutputIsSuccess` | src/server.ts:29-42 | An engine that generates no lines for the configuration the request builds still gives `retCode` 0 with `info` "". There is no empty-result failure. |
| `Server.SampleReplyCarriesPostProcessedCode` | src/server.ts:29-35 | A "json" reply is a success. Its code has no strict map type for Dart. For any other language it is exactly the engine's lines joined with newlines. |
| `Server.SchemaReplyCarriesPostProcessedCode` | src/server.ts:36-42 | A "jsonSchema" reply is a success. Its code has no strict map type for Dart. For any other language it is exactly the engine's lines joined with newlines. |

## Left out

- The quicktype engine itself (input construction, inference, rendering, the language classes). It is a foreign library, so it is a parameter of the model. Whether the engine accepts a given language name is its own business.
- JSON Schema fetching (`FetchingJSONSchemaStore`). It is I/O inside the engine.
- Promise rejection. The source has no `try`/`catch`, so an engine error rejects the request handler and no reply envelope is built. The model's engine is total, and no error envelope exists because the source builds none.
- HTTP plumbing: Express setup, body parsing, routing, `res.send`/`res.end`, `app.listen` and the `GET /` handler. Logging through `logger.info` and `console.log` is left out too: it is a side-effect sink.
- Form values that are not strings. A missing field is `undefined` and a repeated field is an array. Neither matches any `case` or any `===` comparison, so they behave like an unrecognised string. Every field is modelled as a string.
- The handler has no `try`/`catch` and no empty-result check, and the model adds neither: an engine that returns no lines gives a success with empty `info`.
- `Text.SplitJoinRoundTrip`: assumes no generated line contains a newline. The engine's line list is not checked for this.
