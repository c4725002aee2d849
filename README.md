# Skill parameters to an OpenAI tool schema

This project models the client-side logic of a small admin UI for "skills"
(callable tool definitions) and their parameters. It has three parts, one
Dafny module each:

- `Types` (`types.dfy`) has the fixed table from the integer type codes 1..7
  to the JSON-Schema names `string`, `number`, `integer`, `object`, `array`,
  `boolean` and `null`. It also has the `Skill` and `SkillDetail` records and
  the field-by-field validation of a new parameter record.
- `SkillParametersTable` (`skill-parameters-table.dfy`) covers the parameter
  table component. It decodes a fetched list (type codes become names). It
  looks a type name back up to its code, falling back to 0. It sets the item
  type of the parameter with a given id. The component is a class whose
  `parameters` field is replaced after each fetch or successful update.
- `OpenAIPrompt` (`openai-prompt.dfy`) covers the preview that turns a
  skill and its parameters into an OpenAI function-calling tool. The
  pure function `OpenAIFormat` is the specification. The method
  `TransformToOpenAIFormat` follows the host: two passes over an array of
  records. The first pass resolves type codes in place and fills
  `properties`. The second collects `required`. Then the envelope is built,
  with whitespace runs in the skill name replaced by `_`.

A type field is `Code(n)` (a number), `Str(s)` (a string), `Null` (the
JSON null the backend sends for a parameter without an item type) or
`Undefined` (what the host gets from the table for an unknown key). Looking
a value up in the table turns the value into a property key. A number keys
by its decimal text, a string by itself, null by the text `"null"` and
`undefined` by the text `"undefined"`. Of the table's own keys only `"1"`
to `"7"` exist; names the table inherits from the host's base object are not
modelled (see "Left out").

The model keeps three lenient behaviours of the code where a stricter
design would fail or copy:

- An unknown code resolves to `Undefined`. It does not fail.
- An unknown type name looks up to 0. It does not fail.
- The transformer resolves the caller's records in place. It does not build
  new records. `TransformToOpenAIFormat` modifies its array. The table's
  own records are already resolved, though: decoding leaves no number in a
  type field and an update writes a string. `SkillDetailTable` keeps that as
  its invariant `Valid`, so `SkillDetailTable.RenderOpenAIPreview` passes
  them through the in-place transform and leaves them unchanged.

String lengths in validation count UTF-16 code units, as the host does
(`Types.Utf16Length`). The email syntax check is a function parameter
`isEmail`.

## Model

| member | source | states |
|---|---|---|
| Types.CodeToName | frontend/src/components/types.ts:3-11 | a code has a name exactly when it is in 1..7, and that name is one of the table's values |
| Types.CodeToNameValue | frontend/src/components/types.ts:3-11 | the lookup of a numeric type field is a string exactly when the code has a name, and then that name; otherwise undefined |
| Types.ItemTypeKeysAreTheTable | frontend/src/components/types.ts:3-11 | the table's keys are exactly 1..7, and the key list enumerates them in ascending order |
| Types.ItemTypeMappingInjective | frontend/src/components/types.ts:3-11 | two codes with the same name are the same code |
| Types.OnlyFiveIsArray | frontend/src/components/types.ts:8 | a code names "array" if and only if it is 5 |
| Types.Utf16Length | frontend/src/components/types.ts:39-44 | the host's string length lies between the number of characters and twice that |
| Types.Utf16LengthOfBasicPlane | frontend/src/components/types.ts:42-44 | for text in the Basic Multilingual Plane the host's length is the number of characters |
| Types.Message | frontend/src/components/types.ts:36-65 | every checked field has a custom message attached to its check, except skill_version_id |
| Types.FailingFields | frontend/src/components/types.ts:36-65 | a field is reported if and only if its check fails |
| Types.ValidateSkillDetail | frontend/src/components/types.ts:36-65 | success, returning the record unchanged, exactly when every field passes; otherwise a non-empty set naming exactly the failing fields |
| Types.FieldValid | frontend/src/components/types.ts:37-64 | the name passes if and only if it is non-empty; a description of four or more characters always passes and one of fewer than two never does, whatever its characters |
| Types.DescriptionOfThreeRejected | frontend/src/components/types.ts:42-44 | a three-character description makes validation fail, with the description among the failing fields |
| Types.DescriptionOfFourAccepted | frontend/src/components/types.ts:42-44 | a four-character description passes its check |
| Types.DescriptionCountsCodeUnits | frontend/src/components/types.ts:42-44 | two characters outside the Basic Multilingual Plane already pass the four-unit minimum |
| Types.NumericFieldRules | frontend/src/components/types.ts:56-61 | is_required passes if and only if it is an integer and at least 0; status passes if and only if it is present and at least 0 |
| Types.FractionalNumbers | frontend/src/components/types.ts:56-61 | 0.5 fails as is_required but passes as status |
| Types.TypeFieldsPresent | frontend/src/components/types.ts:45-54 | value_type and item_type each pass if and only if they hold a number or a string: null and a missing value fail |
| Types.ValidateIffAllChecks | frontend/src/components/types.ts:36-65 | a record validates if and only if all eight field conditions, email included, hold together |
| SkillParametersTable.LookupByKey | frontend/src/components/SkillParametersTable.tsx:28-29 | a table lookup yields a table name or undefined, never a number; null and undefined look up to undefined |
| SkillParametersTable.DecodeParameter | frontend/src/components/SkillParametersTable.tsx:26-30 | both type fields become their table lookups and every other field is unchanged |
| SkillParametersTable.DecodeFetched | frontend/src/components/SkillParametersTable.tsx:25-31 | decoding keeps the list's length and decodes each element in its own position |
| SkillParametersTable.DecodeFetchedCodes | frontend/src/components/SkillParametersTable.tsx:25-31 | a stored code in 1..7 decodes to its table name and any other code to undefined, with the other eight fields unchanged |
| SkillParametersTable.DecodeTwiceLosesNames | frontend/src/components/SkillParametersTable.tsx:28-29 | decoding is not idempotent: code 5 decodes to "array", which decodes again to undefined |
| SkillParametersTable.FindKey | frontend/src/components/SkillParametersTable.tsx:39-40 | a found key is the first of the keys searched that carries the name; nothing is found if and only if no searched key carries it |
| SkillParametersTable.ItemTypeKey | frontend/src/components/SkillParametersTable.tsx:38-42 | a non-zero result is a code with that name; the result is 0 if and only if no code has that name |
| SkillParametersTable.ItemTypeKeyOfKnownName | frontend/src/components/SkillParametersTable.tsx:38-42 | a table name gets a code in 1..7 with that name, and it is the only such code |
| SkillParametersTable.ItemTypeKeyOfUnknownName | frontend/src/components/SkillParametersTable.tsx:41 | any other name gets 0, which is not a code of the table |
| SkillParametersTable.ItemTypeKeyRoundTrips | frontend/src/components/SkillParametersTable.tsx:38-42 | code to name to code, and name to code to name, both give back what they started from |
| SkillParametersTable.UpdateItemType | frontend/src/components/SkillParametersTable.tsx:52-58 | same length; every parameter with the id gets the new item type and nothing else changes; every other parameter is unchanged |
| SkillParametersTable.UpdateWithoutMatch | frontend/src/components/SkillParametersTable.tsx:52-58 | when no parameter has the id the list is unchanged |
| SkillParametersTable.UpdateIdempotent | frontend/src/components/SkillParametersTable.tsx:52-58 | applying the same update twice equals applying it once |
| SkillParametersTable.UpdateKeepsResolved | frontend/src/components/SkillParametersTable.tsx:52-58 | the update never puts a numeric type field into a list |
| SkillParametersTable.DecodeAgreesWithResolve | frontend/src/components/SkillParametersTable.tsx:25-31 | on a list whose type fields are all numbers or absent, decoding equals the preview's resolution, and the decoded list previews the same |
| SkillParametersTable.DecodeNullDiffersFromResolve | frontend/src/components/SkillParametersTable.tsx:28 | a stored null item type decodes to undefined but the preview's resolution keeps null, so an array parameter without an item type previews with items of type null, and with items of no type once decoded |
| SkillParametersTable.DecodedIsResolved | frontend/src/components/SkillParametersTable.tsx:25-31 | a decoded list has no numeric type field, so the preview's resolution leaves it unchanged |
| SkillParametersTable.SkillDetailTable.constructor | frontend/src/components/SkillParametersTable.tsx:16-17 | the table starts with no parameters for its skill, and so valid |
| SkillParametersTable.SkillDetailTable.OnParametersFetched | frontend/src/components/SkillParametersTable.tsx:21-35 | after a fetch the list is the decoded response, and the table is valid (no numeric type field) |
| SkillParametersTable.SkillDetailTable.HandleItemTypeChange | frontend/src/components/SkillParametersTable.tsx:37-64 | the code sent is the reverse lookup of the chosen name; the list takes the update only if the request succeeded, and the table stays valid |
| SkillParametersTable.SkillDetailTable.RenderOpenAIPreview | frontend/src/components/SkillParametersTable.tsx:79-81 | the preview shown is OpenAIFormat of the table's records; since they are already resolved, the in-place transform leaves them unchanged and the table stays valid |
| OpenAIPrompt.Resolve | frontend/src/components/OpenAIPrompt.tsx:18-23 | no number survives; a code becomes a string exactly when it is in 1..7, and then its table name; strings, null and undefined pass through |
| OpenAIPrompt.ResolveTypes | frontend/src/components/OpenAIPrompt.tsx:18-23 | only the two type fields change, each resolved |
| OpenAIPrompt.ResolveAll | frontend/src/components/OpenAIPrompt.tsx:17-23 | length is kept and each record is resolved in its own position |
| OpenAIPrompt.ResolveAllIdempotent | frontend/src/components/OpenAIPrompt.tsx:18-23 | after resolution no numeric type field remains, and resolving again changes nothing |
| OpenAIPrompt.ResolvedIsFixedPoint | frontend/src/components/OpenAIPrompt.tsx:18-23 | a list without numeric type fields is its own resolution |
| OpenAIPrompt.PropertyOf | frontend/src/components/OpenAIPrompt.tsx:24-32 | an entry carries the value type and description, and has items, holding the item type, if and only if the value type is "array" |
| OpenAIPrompt.Properties | frontend/src/components/OpenAIPrompt.tsx:17-33 | a name is a key of properties if and only if some parameter has it |
| OpenAIPrompt.RequiredNames | frontend/src/components/OpenAIPrompt.tsx:36-40 | required is no longer than the list, and a name is in it if and only if a parameter of that name has is_required 1 |
| OpenAIPrompt.PropertiesSnoc | frontend/src/components/OpenAIPrompt.tsx:24 | one more parameter inserts or overwrites the entry under its name |
| OpenAIPrompt.RequiredNamesSnoc | frontend/src/components/OpenAIPrompt.tsx:36-40 | one more parameter appends its name exactly when is_required is 1 |
| OpenAIPrompt.IsWhitespace | frontend/src/components/OpenAIPrompt.tsx:45 | among ASCII characters exactly tab, line feed, vertical tab, form feed, carriage return and space are whitespace (so the underscore is not) |
| OpenAIPrompt.ReplaceWhitespaceRuns | frontend/src/components/OpenAIPrompt.tsx:45 | the tool name contains no whitespace and is no longer than the skill name |
| OpenAIPrompt.ReplaceKeepsPlainText | frontend/src/components/OpenAIPrompt.tsx:45 | a name without whitespace is kept as it is |
| OpenAIPrompt.ReplaceIdempotent | frontend/src/components/OpenAIPrompt.tsx:45 | replacing twice is replacing once |
| OpenAIPrompt.RunBecomesOneUnderscore | frontend/src/components/OpenAIPrompt.tsx:45 | a maximal whitespace run of any length becomes a single underscore |
| OpenAIPrompt.ReplaceSplits | frontend/src/components/OpenAIPrompt.tsx:45 | text split anywhere except inside a run is replaced part by part |
| OpenAIPrompt.TwoWords | frontend/src/components/OpenAIPrompt.tsx:45 | two words around one run of whitespace become the words joined by one underscore |
| OpenAIPrompt.ExampleSearchVideos | frontend/src/components/OpenAIPrompt.tsx:45 | "Search Videos" becomes "Search_Videos" |
| OpenAIPrompt.ExampleMyTool | frontend/src/components/OpenAIPrompt.tsx:45 | "My   Tool" becomes "My_Tool" |
| OpenAIPrompt.OpenAIFormat | frontend/src/components/OpenAIPrompt.tsx:42-53 | type is "function", parameters.type is "object", the description is the skill's prompt, and the name has no whitespace |
| OpenAIPrompt.ResolveAndCollectProperties | frontend/src/components/OpenAIPrompt.tsx:17-33 | the records are left resolved in place and properties is the in-order insertion of their entries |
| OpenAIPrompt.CollectRequired | frontend/src/components/OpenAIPrompt.tsx:36-40 | required is the in-order list of names with is_required 1 |
| OpenAIPrompt.TransformToOpenAIFormat | frontend/src/components/OpenAIPrompt.tsx:10-54 | the tool returned is OpenAIFormat of the records as given, and the records are left resolved |
| OpenAIPrompt.PropertiesLastWins | frontend/src/components/OpenAIPrompt.tsx:24 | the entry under a name is the one of the last parameter with that name |
| OpenAIPrompt.PropertiesFrom | frontend/src/components/OpenAIPrompt.tsx:24-32 | every entry is the entry of some parameter with that name |
| OpenAIPrompt.OpenAIProperties | frontend/src/components/OpenAIPrompt.tsx:24-32 | each property has a parameter's resolved value type and description, and has items, with the resolved item type, if and only if its type is "array" |
| OpenAIPrompt.OpenAIPropertyKeys | frontend/src/components/OpenAIPrompt.tsx:17-33 | the property keys are exactly the parameter names, and a repeated name takes its last parameter's entry |
| OpenAIPrompt.RequiredNamesAppend | frontend/src/components/OpenAIPrompt.tsx:36-40 | the required names of a concatenation are those of each part in order |
| OpenAIPrompt.RequiredNamesIgnoreTypes | frontend/src/components/OpenAIPrompt.tsx:36-40 | resolution does not change which names are required |
| OpenAIPrompt.OpenAIRequired | frontend/src/components/OpenAIPrompt.tsx:36-40 | the document's required list is the required names of the input, in input order |
| OpenAIPrompt.TransformIdempotent | frontend/src/components/OpenAIPrompt.tsx:18-23 | a second run over records the first run resolved yields the same document |
| OpenAIPrompt.ExampleSearchVideosTool | frontend/src/components/OpenAIPrompt.tsx:42-53 | skill "Search Videos" with one required string parameter "sort" gives the expected tool document |

## Left out

- The network calls (fetching parameters, the item-type PUT), toasts and console logging. A request's outcome is an input: `OnParametersFetched` is called with a successful response, and `HandleItemTypeChange` receives `putSucceeded`.
- SkillParametersTable.SkillDetailTable.HandleItemTypeChange: applies the update to the list held when the request is made. The host applies it to whatever list is current when the response arrives. Answers that arrive out of order, with the last response winning, are concurrency and are not modelled.
- The refetch counter, the CreateParameter dialog, the inline-edit tables (SQLTable, SkillTable), App, and the Python backend. They are form wiring, network calls or database I/O.
- The Claude preview: its source is not part of this model. The Gemini tab is empty in the source.
- Types.ValidateSkillDetail: reports the set of failing fields, not a field-to-message map. `Types.Message` gives the schema's custom texts. The validation library's own default messages (for a missing or wrongly typed value) are not modelled.
- Types.ValidateSkillDetail: the email syntax check is an abstract `isEmail` parameter, not the library's regular expression.
- Type codes are integers. Fractional, NaN or infinite numbers in a type field are not modelled, and neither is NaN in is_required or status.
- OpenAIPrompt.Properties: treats the name `__proto__` like any other name. In the host, assigning that key sets the object's prototype and adds no entry. The lemmas built on Properties (PropertiesLastWins, PropertiesFrom, OpenAIProperties, OpenAIPropertyKeys) inherit this.
- OpenAIPrompt.OpenAIPropertyKeys: inherits the `__proto__` simplification of Properties.
- SkillParametersTable.LookupByKey: a string that names a property the table inherits from the host's base object (`"constructor"`, `"toString"`, `"valueOf"`, `"hasOwnProperty"`, `"__proto__"` and the like) looks up to undefined here; the host yields a function or the base object. The backend types both fields as integers, so the fetched list carries no such strings.
- The order of keys in the printed JSON document, and the JSON text itself: `properties` is a map.
- The same record object appearing twice in the list (aliasing) is not modelled: the array holds values. Resolution is idempotent, so the document would be the same.
