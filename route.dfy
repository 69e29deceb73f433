/** The route handlers of /api/models over the process-wide registry. The
    registry is one mutable object shared by all requests; here it is a
    class whose one field is that table, and each handler is a method. */
module Route {
  import opened Descriptors
  import opened Summary
  import opened Catalog
  import opened Handlers

  class Registry {
    var models: Models

    ghost predicate Valid()
      reads this
    {
      WellFormed(models)
    }

    /** The registry as the process starts it: the literal table. */
    constructor ()
      ensures Valid()
      ensures models == InitialModels()
    {
      models := InitialModels();
      InitialWellFormed();
    }

    /** GET /api/models: the counts, the percentage and the whole table. */
    method Get() returns (r: Response)
      requires Valid()
      ensures r.Success? && r.payload.Overview?
      ensures r.payload.stats == Summarize(models)
    {
      var chinese := |ChineseIds(models)|;
      var total := |models|;
      PartitionSizes(models);
      PercentageAtMostHundred(chinese, total);
      r := Success(Overview(Stats(total, chinese, total - chinese, RoundedPercentage(chinese, total), models)));
    }

    /** POST /api/models: add a model, or ask one for a response. */
    method Post(body: PostBody) returns (r: Response)
      requires Valid()
      modifies this
      ensures Valid()
      ensures Outcome(r, models) == PostOutcome(old(models), body)
    {
      if body.id != "" && body.name != "" && body.provider != "" {
        models := models[body.id := Stored(body)];
        return Success(Message("Model '" + body.id + "' added!"));
      }
      if body.modelId != "" && body.prompt != "" {
        if body.modelId !in models {
          return Failure("Model '" + body.modelId + "' not found");
        }
        var model := models[body.modelId];
        return Success(Completion("Response from " + model.name, body.modelId));
      }
      return Failure("Invalid request");
    }

    /** DELETE /api/models?id=...: remove a model. */
    method Delete(id: Option<string>) returns (r: Response)
      requires Valid()
      modifies this
      ensures Valid()
      ensures Outcome(r, models) == DeleteOutcome(old(models), id)
    {
      if id.None? || id.value == "" || id.value !in models {
        return Failure("Model not found");
      }
      models := models - {id.value};
      return Success(Message("Model '" + id.value + "' removed"));
    }
  }

  /** A request sequence after a restart: read the summary, add a model
      under a new id, ask it, delete it, ask again, read the summary. The
      registry ends as it started. */
  method AddAskRemove(body: PostBody) returns (before: Stats, after: Stats)
    requires IsAdd(body)
    requires body.id !in InitialModels()
    ensures before.totalModels == 34 && before.chinesePercentage == Some(74)
    ensures after == before
  {
    var registry := new Registry();
    var initial := registry.models;
    InitialSummary();
    var summary := registry.Get();
    before := summary.payload.stats;
    var added := registry.Post(body);
    var ask := PostBody("", "", "", false, body.id, "hello", map[]);
    var reply := registry.Post(ask);
    assert reply == Success(Completion("Response from " + body.name, body.id));
    var removed := registry.Delete(Some(body.id));
    DeleteUndoesAdd(initial, body);
    assert removed.Success? && registry.models == initial;
    reply := registry.Post(ask);
    assert reply == Failure("Model '" + body.id + "' not found");
    summary := registry.Get();
    after := summary.payload.stats;
  }
}
