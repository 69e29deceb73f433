/** What the POST and DELETE handlers answer and what they leave in the
    registry, as functions of the registry before the request. The
    `Route.Registry` methods are proved to do exactly this. */
module Handlers {
  import opened Descriptors
  import opened Summary

  /** The body of a `{ success: true, ... }` response. */
  datatype Payload =
    | Message(text: string)
    | Completion(content: string, modelId: string)
    | Overview(stats: Stats)

  /** A response body: `{ success: true, ... }` or `{ success: false, error }`. */
  datatype Response = Success(payload: Payload) | Failure(error: string)

  /** A handler's response together with the registry it leaves behind. */
  datatype Outcome = Outcome(response: Response, models: Models)

  /** `body.id && body.name && body.provider`: the body asks to add a model. */
  predicate IsAdd(b: PostBody)
  {
    b.id != "" && b.name != "" && b.provider != ""
  }

  /** `body.model_id && body.prompt`: the body asks a model for a response. */
  predicate IsLookup(b: PostBody)
  {
    b.modelId != "" && b.prompt != ""
  }

  /** `{ ...body, is_available: true }`: every field of the body is kept,
      and `is_available` is forced to true. */
  function Stored(b: PostBody): Descriptor
  {
    var rest := b.attributes - NamedFields;
    var withModelId := if b.modelId == "" then rest else rest["model_id" := Text(b.modelId)];
    var withPrompt := if b.prompt == "" then withModelId else withModelId["prompt" := Text(b.prompt)];
    Descriptor(b.id, b.name, b.provider, b.isChinese, true, withPrompt)
  }

  /** The lookup branch of POST: a canned completion from the named model,
      or a not-found error. */
  function Lookup(m: Models, modelId: string): (r: Response)
    ensures r.Success? <==> modelId in m
    ensures modelId in m ==> r.payload == Completion("Response from " + m[modelId].name, modelId)
    ensures modelId !in m ==> r.error == "Model '" + modelId + "' not found"
  {
    if modelId !in m then Failure("Model '" + modelId + "' not found")
    else Success(Completion("Response from " + m[modelId].name, modelId))
  }

  /** On a well-formed registry a successful lookup answers for the model
      stored under the asked id, and that model's own id is the id echoed
      back; the empty id is never found. */
  lemma LookupAnswersStoredModel(m: Models, modelId: string)
    requires WellFormed(m)
    ensures Lookup(m, "").Failure?
    ensures Lookup(m, modelId).Success? ==>
      Lookup(m, modelId).payload == Completion("Response from " + m[modelId].name, m[modelId].id)
  {
  }

  /** POST /api/models. The add branch is tried first, so a body that
      qualifies for both is an add; only an add changes the registry, and it
      changes the entry under `body.id` and nothing else. */
  function PostOutcome(m: Models, b: PostBody): (out: Outcome)
    ensures out.response.Success? <==> IsAdd(b) || (IsLookup(b) && b.modelId in m)
    ensures IsAdd(b) ==>
      && out.response == Success(Message("Model '" + b.id + "' added!"))
      && out.models.Keys == m.Keys + {b.id}
      && out.models[b.id] == Stored(b)
      && forall k :: k in m && k != b.id ==> out.models[k] == m[k]
    ensures !IsAdd(b) ==> out.models == m
    ensures !IsAdd(b) && IsLookup(b) ==> out.response == Lookup(m, b.modelId)
    ensures !IsAdd(b) && !IsLookup(b) ==> out.response == Failure("Invalid request")
  {
    if IsAdd(b) then
      Outcome(Success(Message("Model '" + b.id + "' added!")), m[b.id := Stored(b)])
    else if IsLookup(b) then
      Outcome(Lookup(m, b.modelId), m)
    else
      Outcome(Failure("Invalid request"), m)
  }

  /** DELETE /api/models?id=...: `id` is the query parameter, None when it
      is absent. A missing, empty or unknown id fails and changes nothing; a
      known id is removed and nothing else changes. */
  function DeleteOutcome(m: Models, id: Option<string>): (out: Outcome)
    ensures out.response.Success? <==> id.Some? && id.value != "" && id.value in m
    ensures out.response.Success? ==>
      && out.response == Success(Message("Model '" + id.value + "' removed"))
      && out.models.Keys == m.Keys - {id.value}
      && forall k :: k in out.models ==> out.models[k] == m[k]
    ensures out.response.Failure? ==> out == Outcome(Failure("Model not found"), m)
  {
    if id.None? || id.value == "" || id.value !in m then
      Outcome(Failure("Model not found"), m)
    else
      Outcome(Success(Message("Model '" + id.value + "' removed")), m - {id.value})
  }

  /** Only an add that files something new changes the registry. */
  lemma PostChangesOnlyByAdding(m: Models, b: PostBody)
    ensures PostOutcome(m, b).models != m <==> IsAdd(b) && (b.id !in m || m[b.id] != Stored(b))
  {
    if IsAdd(b) && b.id in m && m[b.id] == Stored(b) {
      assert m[b.id := Stored(b)] == m;
    }
  }

  /** POST keeps the registry invariant: an added entry is filed under its
      own id. */
  lemma PostKeepsWellFormed(m: Models, b: PostBody)
    requires WellFormed(m)
    ensures WellFormed(PostOutcome(m, b).models)
  {
  }

  /** DELETE keeps the registry invariant. */
  lemma DeleteKeepsWellFormed(m: Models, id: Option<string>)
    requires WellFormed(m)
    ensures WellFormed(DeleteOutcome(m, id).models)
  {
  }

  /** In a well-formed registry the empty id is never a key, so the
      `!modelId` test of DELETE only matters for an absent parameter. */
  lemma DeleteOnWellFormed(m: Models, id: string)
    requires WellFormed(m)
    ensures DeleteOutcome(m, Some(id)).response.Success? <==> id in m
  {
  }

  /** After an add, asking the added model answers with its name. */
  lemma LookupAfterAdd(m: Models, b: PostBody)
    requires IsAdd(b)
    ensures Lookup(PostOutcome(m, b).models, b.id) == Success(Completion("Response from " + b.name, b.id))
  {
  }

  /** After a delete, the removed model is not found. (The invariant is
      needed: DELETE refuses the empty id, so an entry filed under "" would
      survive it.) */
  lemma LookupAfterDelete(m: Models, id: string)
    requires WellFormed(m)
    ensures Lookup(DeleteOutcome(m, Some(id)).models, id).Failure?
  {
  }

  /** Deleting a model that was just added under a new id restores the
      registry as it was. */
  lemma DeleteUndoesAdd(m: Models, b: PostBody)
    requires IsAdd(b)
    requires b.id !in m
    ensures DeleteOutcome(PostOutcome(m, b).models, Some(b.id))
         == Outcome(Success(Message("Model '" + b.id + "' removed")), m)
  {
    assert PostOutcome(m, b).models - {b.id} == m;
  }

  /** Posting the same body twice leaves what posting it once leaves. */
  lemma PostIdempotent(m: Models, b: PostBody)
    ensures PostOutcome(PostOutcome(m, b).models, b) == PostOutcome(m, b)
  {
    if IsAdd(b) {
      assert PostOutcome(m, b).models[b.id := Stored(b)] == PostOutcome(m, b).models;
    }
  }

  /** A second delete of the same id fails. */
  lemma DeleteTwiceFails(m: Models, id: Option<string>)
    ensures DeleteOutcome(DeleteOutcome(m, id).models, id).response == Failure("Model not found")
  {
  }

  /** GET after an add: the added id is listed, the total grows by one
      unless the id was already there, and the Chinese count follows the old
      and the new entry's flag. */
  lemma {:induction false} SummaryAfterAdd(m: Models, b: PostBody)
    requires IsAdd(b)
    ensures var before, after := Summarize(m), Summarize(PostOutcome(m, b).models);
      && b.id in after.models
      && after.totalModels == before.totalModels + (if b.id in m then 0 else 1)
      && after.chineseModels == before.chineseModels
           - (if b.id in m && m[b.id].isChinese then 1 else 0)
           + (if b.isChinese then 1 else 0)
  {
    SizeAfterUpdate(m, b.id, Stored(b));
    ChineseCountAfterUpdate(m, b.id, Stored(b));
  }

  /** GET after a successful delete: the id is gone, the total is one less,
      and the Chinese count is one less exactly when the removed model was
      Chinese. */
  lemma {:induction false} SummaryAfterDelete(m: Models, id: string)
    requires id != ""
    requires id in m
    ensures var before, after := Summarize(m), Summarize(DeleteOutcome(m, Some(id)).models);
      && id !in after.models
      && after.totalModels == before.totalModels - 1
      && after.chineseModels == before.chineseModels - (if m[id].isChinese then 1 else 0)
  {
    CountsAfterRemove(m, id);
  }
}
