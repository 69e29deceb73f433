# Model registry of the `/api/models` route

The `/api/models` route of the web app keeps a process-wide registry: a
plain JavaScript object that maps a model id to a model descriptor. At
start-up it holds 34 models in three commented sections: 22 Chinese primary
models, 10 international fallback models and 2 local Ollama models. All
requests share that one object. Three handlers work on it:

- `GET` summarises the registry. It reports the total number of models,
  the number flagged `is_chinese`, the number not flagged, the rounded
  Chinese share in percent, and the registry itself.
- `POST` does one of two things. A body with a truthy `id`, `name` and
  `provider` files `{ ...body, is_available: true }` under `body.id`,
  replacing any model already there. Otherwise a body with a truthy
  `model_id` and `prompt` gets a canned completion from the named model, or
  a not-found error. Any other body is an invalid request.
- `DELETE ?id=...` removes the named model, or answers "Model not found".

The Dafny model contains:

- `Descriptors`: the entities. A descriptor keeps the four fields the
  handlers read (`id`, `name`, `provider`, `is_chinese`), the
  `is_available` flag, and a map holding every other attribute. The module
  also holds the parsed POST body and the registry invariant `WellFormed`:
  every model is filed under its own non-empty id, has a name and a
  provider, and is available.
- `Summary`: the GET summary as a function of the registry, with the
  rounding of `Math.round` written out exactly.
- `Catalog`: the start-up literal, entry by entry. An object literal is
  modelled as its sequence of key/value pairs, folded so that a later key
  overwrites an earlier one. The module proves the invariant and the counts
  of the start-up table: 34 models, 25 Chinese, 74 %.
- `Handlers`: what POST and DELETE answer and what registry they leave, as
  functions of the registry before the request, with the lemmas relating
  the operations to each other. These definitions test for a model id with
  the corrected own-key test. The code's test `modelsRegistry[id]` also
  finds the 12 members every object inherits from `Object.prototype` (see
  Findings), so for those names the definitions answer differently from
  the code: POST `model_id` "toString" fails here and succeeds in the code.
- `Route`: the registry as a class whose one field is the table. It has
  the three handlers as methods, each proved to compute exactly what
  `Summary` and `Handlers` define, and so with the corrected own-key test.
  It also has a client method that runs a request sequence after a
  restart.
- `Prototype`: the handlers' property test as written, with proofs that it
  differs from the corrected one exactly on the inherited names that are
  not model ids.

Modelling choices:

- A POST string field that is missing, `null` or empty is the empty string
  in the model: all three are falsy, and truthiness is all the handler
  tests.
- The `id` query parameter is `None` when it is absent.
- With no models, `Math.round(0 / 0 * 100)` is `NaN`, which the JSON
  response carries as `null`. The model says `None`.
- The route sets no HTTP status, so every response is 200; the model has no
  status field.

## Model

| member | source | states |
|---|---|---|
| Catalog.InitialWellFormed | src/app/api/models/route.ts:5-245 | every model of the start-up literal is filed under its own non-empty id, has a name and a provider, and is marked available |
| Catalog.EntriesDistinctAndKeyed | src/app/api/models/route.ts:5-245 | the literal writes 34 pairs, no key twice, and each key equals its entry's `id` |
| Catalog.EntriesChinese | src/app/api/models/route.ts:5-245 | 25 of the literal's pairs are flagged `is_chinese`: the 22 primary ones, `deepseek-groq` and the two Ollama models |
| Catalog.InitialCounts | src/app/api/models/route.ts:5-245 | the start-up registry holds 34 models, 25 of them Chinese |
| Catalog.InitialSummary | src/app/api/models/route.ts:247-261 | GET on the start-up registry reports 34 models, 25 Chinese, 9 international and 74 % |
| Catalog.SummaryOf34With25 | src/app/api/models/route.ts:248-257 | any registry of 34 models with 25 Chinese is summarised as 9 international models and 74 % |
| Catalog.IndexAt | src/app/api/models/route.ts:5-245 | in an object literal with no repeated key, each value is found under its key |
| Catalog.IndexEntry | src/app/api/models/route.ts:5-245 | every key of an object literal comes from one of its pairs and holds that pair's value |
| Catalog.IndexSize | src/app/api/models/route.ts:5-245 | an object literal with no repeated key has one key per pair |
| Catalog.IndexChinese | src/app/api/models/route.ts:5-245 | an object literal with no repeated key has as many Chinese entries as it has Chinese pairs |
| Catalog.CountChineseConcat | src/app/api/models/route.ts:5-245 | the Chinese count of consecutive sections of the literal is the sum of their counts |
| Catalog.AbsentFromInitial | src/app/api/models/route.ts:5-245 | a name that no pair of the literal uses is not a key at start-up |
| Summary.PartitionSizes | src/app/api/models/route.ts:248-255 | the Chinese and the international counts add up to the total |
| Summary.RoundedPercentage | src/app/api/models/route.ts:256 | the percentage is missing (JSON `null`) exactly when the total is 0; otherwise it is the integer nearest to 100 · part / whole, a half rounded up |
| Summary.PercentageAtMostHundred | src/app/api/models/route.ts:256 | a part of a whole rounds to a percentage of at most 100 |
| Summary.Summarize | src/app/api/models/route.ts:247-261 | the GET data: the registry itself, its size, the Chinese count, the international count (the two add up to the size), and the percentage (missing exactly when the registry is empty, at most 100, and the nearest integer otherwise) |
| Summary.ChineseIdsAfterUpdate | src/app/api/models/route.ts:267 | filing a model under an id changes the Chinese ids at that id only |
| Summary.ChineseIdsAfterRemove | src/app/api/models/route.ts:290 | removing an id removes it from the Chinese ids and nothing else |
| Summary.SizeAfterUpdate | src/app/api/models/route.ts:267 | filing under a new id adds one model; filing under a used id adds none |
| Summary.ChineseCountAfterUpdate | src/app/api/models/route.ts:267 | filing under an id moves the Chinese count by the old and the new model's flag |
| Summary.CountsAfterRemove | src/app/api/models/route.ts:290 | removing a present id lowers the total by one, and the Chinese count by one exactly when the model was Chinese |
| Handlers.LookupAnswersStoredModel | src/app/api/models/route.ts:271-280 | on a registry with the invariant, the empty id is never found, and a successful lookup answers "Response from <name>" for the model stored under the asked id, echoing that model's own id |
| Handlers.PostOutcome | src/app/api/models/route.ts:263-283 | POST succeeds exactly for an add, or for a lookup of a present id. The add branch is tried first; it answers "Model '<id>' added!", adds the id to the keys, stores the body with `is_available` true, and leaves every other model unchanged. Every other branch leaves the registry unchanged, and a body that is neither kind is an invalid request |
| Handlers.DeleteOutcome | src/app/api/models/route.ts:285-292 | DELETE succeeds exactly when the parameter is present, non-empty and a key. It then answers "Model '<id>' removed", drops exactly that key and leaves every other model unchanged. Otherwise it answers "Model not found" and changes nothing |
| Handlers.PostChangesOnlyByAdding | src/app/api/models/route.ts:263-283 | POST changes the registry exactly when it is an add that files something new |
| Handlers.PostKeepsWellFormed | src/app/api/models/route.ts:266-268 | POST keeps the registry invariant |
| Handlers.DeleteKeepsWellFormed | src/app/api/models/route.ts:285-292 | DELETE keeps the registry invariant |
| Handlers.DeleteOnWellFormed | src/app/api/models/route.ts:287 | on a registry with the invariant, a present parameter is deleted exactly when it is a key |
| Handlers.LookupAfterAdd | src/app/api/models/route.ts:266-280 | after an add, asking the added id answers with the added name |
| Handlers.LookupAfterDelete | src/app/api/models/route.ts:271-292 | after a delete, asking the same id is answered with not found |
| Handlers.DeleteUndoesAdd | src/app/api/models/route.ts:266-292 | deleting a model just added under a new id succeeds and restores the registry as it was |
| Handlers.PostIdempotent | src/app/api/models/route.ts:263-283 | posting the same body twice has the effect and answer of posting it once |
| Handlers.DeleteTwiceFails | src/app/api/models/route.ts:285-292 | a second delete of the same id answers "Model not found" |
| Handlers.SummaryAfterAdd | src/app/api/models/route.ts:247-268 | after an add the id is listed, the total grows by one unless the id was there, and the Chinese count follows the old and the new flag |
| Handlers.SummaryAfterDelete | src/app/api/models/route.ts:247-292 | after a successful delete the id is gone, the total is one less, and the Chinese count is one less exactly when the model was Chinese |
| Route.Registry.constructor | src/app/api/models/route.ts:5-245 | the registry starts as the literal table and satisfies the invariant |
| Route.Registry.Get | src/app/api/models/route.ts:247-261 | GET answers success with exactly the summary of the current registry |
| Route.Registry.Post | src/app/api/models/route.ts:263-283 | the method's answer and the registry it leaves are exactly those of the POST definition, and it keeps the invariant |
| Route.Registry.Delete | src/app/api/models/route.ts:285-292 | the method's answer and the registry it leaves are exactly those of the DELETE definition, and it keeps the invariant |
| Route.AddAskRemove | src/app/api/models/route.ts:247-292 | after a restart, GET reports 34 models and 74 %; adding a model under a new id, asking it, deleting it and asking again leaves a GET summary equal to the first one |
| Prototype.LookupAsWritten | src/app/api/models/route.ts:271-280 | the lookup as written fails only for a name that is neither a model id nor an inherited member; it agrees with `Handlers.Lookup` on every model id and on every name that is not inherited |
| Prototype.LookupDiffersExactlyOnInherited | src/app/api/models/route.ts:271-280 | the lookup as written and the own-key lookup give different answers exactly for an inherited name that is not a model id |
| Prototype.DeleteAsWritten | src/app/api/models/route.ts:285-292 | DELETE as written leaves the same registry as `Handlers.DeleteOutcome`, and gives the same answer for every model id and every name that is not inherited |
| Prototype.DeleteDiffersExactlyOnInherited | src/app/api/models/route.ts:285-292 | DELETE as written and the own-key DELETE give different outcomes exactly for an inherited name that is not a model id |
| Prototype.InheritedNameAnswers | src/app/api/models/route.ts:271-280 | an inherited name that is not a model id gets a completion as written, where the own-key lookup reports not found |
| Prototype.InheritedNameRemoved | src/app/api/models/route.ts:285-292 | an inherited name that is not a model id is reported removed as written while nothing is removed, where the own-key version reports not found |
| Prototype.ToStringAnswers | src/app/api/models/route.ts:271-280 | POST with `model_id` "toString" answers "Response from toString" as written |
| Prototype.ConstructorRemoved | src/app/api/models/route.ts:285-292 | DELETE `?id=constructor` answers "Model 'constructor' removed" as written and removes nothing |
| Prototype.InitialLacksInheritedNames | src/app/api/models/route.ts:5-245 | neither "toString" nor "constructor" is a key of the start-up registry |
| Prototype.InitialTableCounterexamples | src/app/api/models/route.ts:271-292 | on the start-up registry, both counterexamples happen |

## Left out

- Handlers.PostOutcome: the lookup branch uses the corrected own-key
  test, so for the names inherited from `Object.prototype` it answers
  "not found" where route.ts:272-278 answers with a completion. The test
  as written is `Prototype.LookupAsWritten`.
- Handlers.DeleteOutcome: the corrected own-key test answers
  "Model not found" for the inherited names, where route.ts:287-291
  reports them removed. The test as written is `Prototype.DeleteAsWritten`.
- The attribute values the handlers never read are stored but not
  interpreted. These are `api_type`, `base_url`, `api_key_env`,
  `model_name`, `max_context`, `strengths`, `cost_per_1k_tokens` and
  `priority`. Numbers are exact reals, not IEEE doubles.
- Summary.RoundedPercentage: the rounding is exact. `Math.round` applied
  to the floating-point quotient can differ from it at an exact half: for
  29 of 200 the model gives 15, while in doubles `29 / 200 * 100` is
  14.499... and rounds to 14.
- Handlers.Stored: a body field that is present but `null` or empty is
  copied into the stored model by the spread `{ ...body }`. The model
  collapses absent, `null` and empty to "" and stores `model_id` and
  `prompt` only when non-empty. Keys of `NamedFields` in a body's other
  attributes are dropped, so each JavaScript field has one value.
- A POST body field is a string, absent or empty in the model. A field of
  another JSON type (a number `id`, say) is not modelled. For the same
  reason `is_chinese` is modelled only by its truthiness.
- Property keys are JavaScript strings compared as sequences of
  characters. The JavaScript key normalisation of non-string ids is not
  modelled.
- `__proto__` as a POST `id`: assigning `modelsRegistry["__proto__"]`
  replaces the object's prototype instead of adding a model. The add
  branch is modelled as an ordinary key update.
- The order of keys in the object and in the JSON output is not modelled:
  the registry is a map.
- JSON parsing of the request body and serialisation of the response are
  left out, as are HTTP status codes. A body that is not JSON makes
  `request.json()` throw, and a JSON `null` body makes `body.id` throw a
  TypeError; both end in a server error, which is not modelled. Any other
  non-object body reads as all fields absent and is an invalid request,
  as the all-empty `PostBody` is.
- Concurrency between requests, and loss of the registry on a restart
  (there is no persistence), are left out.
- The page component, the root layout and the quick-add route are not
  part of this model.

## Findings

| source | as written | input that shows it | evidently intended | confidence | as-written member | corrected member |
|---|---|---|---|---|---|---|
| src/app/api/models/route.ts:272-273 | `modelsRegistry[body.model_id]` followed by `!model` also finds the members every object inherits from `Object.prototype` | POST `{ "model_id": "toString", "prompt": "hi" }` answers `success: true` with "Response from toString" | an id that is not a registered model answers "Model 'toString' not found" | not executed | Prototype.ToStringAnswers | Handlers.Lookup |
| src/app/api/models/route.ts:287-290 | `!modelsRegistry[modelId]` also finds inherited members, and `delete` of a name the object does not own does nothing | DELETE `?id=constructor` answers `success: true` with "Model 'constructor' removed" and removes nothing | "Model not found" for an id that is not a registered model | not executed | Prototype.ConstructorRemoved | Handlers.DeleteOutcome |
