# FRA document pipeline: field resolution and the fail-fast orchestrator

This project models the server action of the Forest Rights Act document
digitiser (`app/actions.js`). The action takes a scanned land-claim document,
given as a data URI. It runs the document through four model-backed stages:

1. text extraction (OCR),
2. text normalisation,
3. named-entity recognition,
4. structuring into a fixed five-field record.

It returns the tagged result `{success: true, data}` or
`{success: false, error}`.

Between recognition and structuring, a pure lookup (`findEntityValue`) maps
the open-vocabulary entity labels onto the five fields of the structuring
input. Each field has its own keyword set. For every field the lookup takes
the first entity, in list order, whose lower-cased label contains any of that
field's keywords.

Modules:

- `Wrappers` (`wrappers.dfy`): `Option`, where `None` stands for
  `undefined`/`null`; JavaScript truthiness of an optional string; the prefix
  relation.
- `Schemas` (`schemas.dfy`): the record shapes that flow between the stages.
  They follow the schemas in `ai/flows/recognize-named-entities.js:14-25` and
  `ai/flows/structure-data-to-json.js:12-39`. The entity's `label` field is
  called `labelText`, because `label` is a reserved word in Dafny.
- `EntityLookup` (`entity_lookup.dfy`): lower-casing, substring search, the
  `some` over keywords, `findEntityValue`, and the field table with its lemmas.
- `Pipeline` (`pipeline.dfy`): `processDocument`. The four stages are
  function-valued parameters (`Stages`). A stage either returns a possibly
  absent output (`Returned`) or throws (`Threw`). The thrown value is an
  `Error` with a message or some other value.

`Execute` is `processDocument` with every stage call recorded, together with
the argument it was given. "Stage X is never called" is stated in two ways.
First, the recorded calls stop at the failing stage. Second,
`UncalledStagesIrrelevant` proves that replacing any stage after the last one
called cannot change the run. `ProcessDocument` is the action's result alone.

Each gate is JavaScript truthiness, `!x?.field`, written out:

- a record that is absent fails;
- a field that is absent fails;
- an empty string fails;
- an entity list is truthy even when it is empty.

The output records' fields are modelled as optional. The gates therefore do
not rely on the stages' schema validation.

## Model

| member | source | states |
|---|---|---|
| `Wrappers.TruthyString` | app/actions.js:17 | JavaScript truthiness of an absent-or-string value, used by the gates at app/actions.js:17, 25 and 33: absent and `""` are falsy. See `MissingUriFails`, `OcrGateFails` and `PreprocessGateFails`. |
| `EntityLookup.Lower` | app/actions.js:10 | `toLowerCase` on the label, character by character. See `LowerIdempotent`, `LabelCaseIgnored` and `UppercaseKeywordNeverMatches`. |
| `EntityLookup.Includes` | app/actions.js:10 | `includes`: `sub` occurs at some position of `s`. See `IncludesEdgeCases`. |
| `EntityLookup.IncludesEdgeCases` | app/actions.js:10 | The empty string occurs in every string, and a `sub` longer than `s` never occurs in it. |
| `EntityLookup.LabelMatches` | app/actions.js:10 | The `some` predicate applied to the lower-cased label, with the keywords not lowered. See `AnyKeyword` and `LabelCaseIgnored`. |
| `EntityLookup.FindEntityValue` | app/actions.js:8-13 | `findEntityValue`, the first-match search over the entity list. See `FindEntityValueIsFirstMatch`. |
| `EntityLookup.ResolveFields` | app/actions.js:48-54 | The field table: each of the five fields is looked up independently with its own keyword set. See `FieldAbsentIffNoMatch`, `NoEntitiesAllFieldsAbsent` and `VillageLabelCapturesHolderName`. |
| `Pipeline.ErrorMessage` | app/actions.js:61-62 | The message the catch block chooses: the error's own message for an `Error`, the fixed unknown-error text otherwise. See `ExtractThrows` and `NetworkTimeoutReported`. |
| `EntityLookup.FindEntityValueIsFirstMatch` | app/actions.js:8-13 | `findEntityValue`'s result is absent exactly when no entity's lower-cased label contains a keyword. A present result is the value of the first matching entity in list order. Whenever entity `i` is the first match, the result is that entity's value. |
| `EntityLookup.AnyKeyword` | app/actions.js:10 | `some` holds exactly when at least one keyword in the list occurs in the text. `LabelMatches` applies it to the lower-cased label. |
| `EntityLookup.ValueComesFromMatchingEntity` | app/actions.js:9-12 | Any returned value is the value of an entity in the list whose lower-cased label contains one of the keywords. |
| `EntityLookup.LaterEntitiesIgnored` | app/actions.js:9-11 | Once some entity matches, entities appended after the list do not change the result. |
| `EntityLookup.UnmatchedEntitiesSkipped` | app/actions.js:9-11 | A prefix of entities that match nothing is skipped: the result is that of the rest of the list. |
| `EntityLookup.KeywordOrderIrrelevant` | app/actions.js:9-10 | Keywords have no priority. Two keyword lists with the same members give the same result for every entity list. |
| `EntityLookup.LabelCaseIgnored` | app/actions.js:10 | A label and its lower-cased form match the same keywords. |
| `EntityLookup.UppercaseKeywordNeverMatches` | app/actions.js:10 | Only the label is lower-cased, so a keyword that holds an upper-case letter matches no label. |
| `EntityLookup.NoEntitiesAllFieldsAbsent` | app/actions.js:48-54 | An empty entity list leaves all five fields of the structuring input absent: `None`, not an empty string and not null. |
| `EntityLookup.FieldAbsentIffNoMatch` | app/actions.js:48-54 | For each of the five fields, the field is absent exactly when no entity label matches that field's keyword set (`patta holder`/`name`, `village`, `coordinates`/`gps`, `claim status`/`status`, `other`). |
| `EntityLookup.VillageLabelCapturesHolderName` | app/actions.js:48-54 | The list `[village name: Rampur, patta holder name: Ram Singh]` (labels passed as parameters fixed by the precondition) resolves to holder `Rampur` (through `name`), village `Rampur`, and the other three fields absent. |
| `Pipeline.Execute` | app/actions.js:15-68 | Every failure's message starts with `Failed to process document. `. At most four stage calls are made, in the fixed stage order. A success has called all four stages. |
| `Pipeline.ProcessDocument` | app/actions.js:59-66 | When every stage call settles, the action returns a tagged result and never throws. Every failure's message carries the fixed prefix. |
| `Pipeline.Abort` | app/actions.js:59-66 | The catch block returns a failure whose message starts with the prefix, and it keeps the calls made so far. |
| `Pipeline.MissingUriFails` | app/actions.js:17-19 | An absent or empty data URI fails with `... Document data URI is missing.` and no stage is called. |
| `Pipeline.ExtractThrows` | app/actions.js:22-24 | A value thrown by extraction fails the run with only extraction called. The message is the prefix followed by the error's message, or by `An unknown error occurred.` when the value is not an `Error`. |
| `Pipeline.OcrGateFails` | app/actions.js:25-27 | An absent output, an absent text or an empty text fails with `... OCR failed to extract text from the document.`. Preprocessing is not called. |
| `Pipeline.PreprocessThrows` | app/actions.js:30-32 | A value thrown by preprocessing is wrapped the same way. Preprocessing was called with the extracted text, and recognition is not called. |
| `Pipeline.PreprocessGateFails` | app/actions.js:33-35 | An absent or empty preprocessed text fails with `... Text preprocessing failed.`. Recognition is not called. |
| `Pipeline.RecognizeThrows` | app/actions.js:38-40 | A value thrown by recognition is wrapped the same way. Recognition was called with the preprocessed text, and structuring is not called. |
| `Pipeline.NerGateFails` | app/actions.js:41-43 | An absent output or an absent entity list fails with `... Named Entity Recognition failed to identify entities.`. Structuring is not called. |
| `Pipeline.StructureThrows` | app/actions.js:56 | A value thrown by structuring is wrapped the same way, after all four calls. |
| `Pipeline.EveryGatePasses` | app/actions.js:46-58 | When every gate passes, each stage is called with the previous stage's output. Structuring receives exactly the five `findEntityValue` results. The result is `Succeeded` with structuring's output passed through unchecked, absent output included. |
| `Pipeline.EmptyEntitiesPassGate` | app/actions.js:41-54 | An empty entity list passes the entity gate. Structuring is still called, on an input with every field absent. |
| `Pipeline.NetworkTimeoutReported` | app/actions.js:61-65 | Extraction throwing `Error("network timeout")` yields the error `Failed to process document. network timeout`. |
| `Pipeline.SuccessOnlyWhenEveryGatePasses` | app/actions.js:16-58 | A success implies that the URI was truthy and every stage's output passed its gate. The data is what structuring returned for the resolved fields. |
| `Pipeline.UncalledStagesIrrelevant` | app/actions.js:16-56 | Fail-fast: stages after the last one called have no influence. Replacing them leaves the whole run, result and calls, unchanged. |

## Keyword priority

The keywords of a field have no priority over other fields' keywords, and the
search runs in entity order. So the list
`[village name: Rampur, patta holder name: Ram Singh]`, with the village
entity first, fills the holder field with `Rampur`: the keyword `name` already
matches the first entity's label. The village field is `Rampur` too
(`VillageLabelCapturesHolderName`). Within a field the keywords have no
priority either: `patta holder` does not outrank `name`, and the first entity
matching any of them wins.

## Left out

- The four model-backed stages (the language-model prompts and flows in
  `ai/flows/`) are abstract function parameters. The model takes the zod
  schemas' field types but not their presence: an output record or field may
  be absent.
- `Lower`: lower-cases ASCII letters only. JavaScript's `toLowerCase` uses
  full Unicode case mapping. The model states only that the label is
  lower-cased and the keywords are not.
- Data URIs are `Option<string>`. A truthy non-string value (an object) is not
  modelled. Neither is the `data:<mime>;base64,` shape, which the action does
  not check.
- An entity whose label is not a string would make `toLowerCase` throw. The
  schema rules this out, and the model's `Entity` always has a string label.
- An entity without a `value`: it could still match, and `entity?.value` would
  then give `undefined`. The model's `Entity` always has a string value, so
  `FindEntityValueIsFirstMatch`'s "absent exactly when no entity matches"
  relies on the schema.
- A truthy `entities` that is not an array: `entities.find` would throw a
  `TypeError`, and the catch block would report it. The model's `entities` is
  always a sequence.
- A truthy `extractedText` or `preprocessedText` that is not a string: it
  would pass its gate. The model's text fields are `Option<string>`.
- `console.error` logging and the `async`/`await` scheduling. The awaits are
  plain sequential calls, and every stage call settles: it returns or throws.
  A stage whose promise never settles is outside the model. The action sets
  no time-out, so in the program such a stage leaves the action pending
  forever. `ProcessDocument`'s "always returns a tagged result" holds only
  for stages that settle.
- The user interface (`app/page.js`, `components/app/`), the file reader, and
  the JSON export through `JSON.stringify`. So the export round-trip property
  is not modelled. `ai/dev.js` is not part of this model.
