/** Property access on the registry as the route handlers write it. The
    handlers index a plain JavaScript object (`modelsRegistry[id]`) and test
    the result for truthiness. A plain object also answers for the members
    it inherits from `Object.prototype`, and every one of them is a truthy
    value. So the lookup branch of POST and the DELETE handler treat those
    names as if they were models. The rest of the model uses the own-key
    test of `Handlers.Lookup` and `Handlers.DeleteOutcome`, which is what
    the handlers' error messages say they mean. */
module Prototype {
  import opened Descriptors
  import opened Catalog
  import opened Handlers

  /** The members every plain object inherits from `Object.prototype`,
      each with the `name` of its value: each is a function named after its
      key, except `constructor` (the function `Object`) and `__proto__` (the
      prototype object itself, whose `name` is undefined, which a template
      string prints as "undefined"). */
  const InheritedNames: map<string, string> := map[
    "constructor" := "Object",
    "__defineGetter__" := "__defineGetter__",
    "__defineSetter__" := "__defineSetter__",
    "hasOwnProperty" := "hasOwnProperty",
    "__lookupGetter__" := "__lookupGetter__",
    "__lookupSetter__" := "__lookupSetter__",
    "isPrototypeOf" := "isPrototypeOf",
    "propertyIsEnumerable" := "propertyIsEnumerable",
    "toString" := "toString",
    "valueOf" := "valueOf",
    "__proto__" := "undefined",
    "toLocaleString" := "toLocaleString"]

  /** What `modelsRegistry[key]` evaluates to. */
  datatype Property = Own(d: Descriptor) | Inherited(name: string) | Undefined

  function PropertyOf(m: Models, key: string): (p: Property)
    ensures p.Undefined? <==> key !in m && key !in InheritedNames
    ensures key in m ==> p == Own(m[key])
  {
    if key in m then Own(m[key])
    else if key in InheritedNames then Inherited(InheritedNames[key])
    else Undefined
  }

  /** The lookup branch of POST as written: `!model` fails only for an
      undefined property. */
  function LookupAsWritten(m: Models, modelId: string): (r: Response)
    ensures r.Failure? <==> modelId !in m && modelId !in InheritedNames
    ensures modelId !in InheritedNames ==> r == Lookup(m, modelId)
    ensures modelId in m ==> r == Lookup(m, modelId)
  {
    match PropertyOf(m, modelId)
    case Undefined => Failure("Model '" + modelId + "' not found")
    case Own(d) => Success(Completion("Response from " + d.name, modelId))
    case Inherited(name) => Success(Completion("Response from " + name, modelId))
  }

  /** DELETE as written: `!modelsRegistry[modelId]` fails only for an
      undefined property, and `delete` of a name the object does not own
      removes nothing. */
  function DeleteAsWritten(m: Models, id: Option<string>): (out: Outcome)
    ensures out.models == DeleteOutcome(m, id).models
    ensures (id.Some? ==> id.value !in InheritedNames) ==> out == DeleteOutcome(m, id)
    ensures id.Some? && id.value in m ==> out == DeleteOutcome(m, id)
  {
    if id.None? || id.value == "" || PropertyOf(m, id.value).Undefined? then
      Outcome(Failure("Model not found"), m)
    else
      Outcome(Success(Message("Model '" + id.value + "' removed")), m - {id.value})
  }

  /** The lookup as written and the own-key lookup differ exactly on the
      inherited names that are not model ids. */
  lemma LookupDiffersExactlyOnInherited(m: Models, modelId: string)
    ensures LookupAsWritten(m, modelId) != Lookup(m, modelId)
        <==> modelId in InheritedNames && modelId !in m
  {
  }

  /** DELETE as written and the own-key DELETE differ exactly on the
      inherited names that are not model ids. */
  lemma DeleteDiffersExactlyOnInherited(m: Models, id: Option<string>)
    ensures DeleteAsWritten(m, id) != DeleteOutcome(m, id)
        <==> id.Some? && id.value in InheritedNames && id.value !in m
  {
    assert "" !in InheritedNames;
  }

  /** For every inherited name that is not a model id, the lookup as
      written answers with a completion where the own-key lookup reports
      that the model is not found. */
  lemma InheritedNameAnswers(m: Models, k: string)
    requires k in InheritedNames
    requires k !in m
    ensures LookupAsWritten(m, k) == Success(Completion("Response from " + InheritedNames[k], k))
    ensures Lookup(m, k) == Failure("Model '" + k + "' not found")
  {
  }

  /** For every inherited name that is not a model id, DELETE as written
      reports the model removed and leaves the registry as it was; the
      own-key version reports it not found. */
  lemma InheritedNameRemoved(m: Models, k: string)
    requires k in InheritedNames
    requires k !in m
    ensures DeleteAsWritten(m, Some(k)) == Outcome(Success(Message("Model '" + k + "' removed")), m)
    ensures DeleteOutcome(m, Some(k)) == Outcome(Failure("Model not found"), m)
  {
    assert m - {k} == m;
  }

  /** POST `{ model_id: "toString", prompt: ... }` on any registry without
      a model of that id: as written it answers "Response from toString";
      the own-key lookup reports the model not found. */
  lemma ToStringAnswers(m: Models)
    requires "toString" !in m
    ensures LookupAsWritten(m, "toString") == Success(Completion("Response from toString", "toString"))
    ensures Lookup(m, "toString") == Failure("Model 'toString' not found")
  {
    InheritedNameAnswers(m, "toString");
    assert InheritedNames["toString"] == "toString";
    assert "Response from " + "toString" == "Response from toString";
    assert "Model '" + "toString" + "' not found" == "Model 'toString' not found";
  }

  /** DELETE `?id=constructor` on any registry without a model of that id:
      as written it reports "Model 'constructor' removed" and removes
      nothing; the own-key version reports the model not found. */
  lemma ConstructorRemoved(m: Models)
    requires "constructor" !in m
    ensures DeleteAsWritten(m, Some("constructor"))
         == Outcome(Success(Message("Model 'constructor' removed")), m)
    ensures DeleteOutcome(m, Some("constructor")) == Outcome(Failure("Model not found"), m)
  {
    InheritedNameRemoved(m, "constructor");
    assert "Model '" + "constructor" + "' removed" == "Model 'constructor' removed";
  }

  /** No pair of the literal is keyed "toString". */
  lemma EntriesAvoidToString()
    ensures forall i :: 0 <= i < |Entries()| ==> Entries()[i].0 != "toString"
  {
  }

  /** No pair of the literal is keyed "constructor". */
  lemma EntriesAvoidConstructor()
    ensures forall i :: 0 <= i < |Entries()| ==> Entries()[i].0 != "constructor"
  {
  }

  /** Neither name is a key of the registry as it starts. */
  lemma InitialLacksInheritedNames()
    ensures "toString" !in InitialModels()
    ensures "constructor" !in InitialModels()
  {
    EntriesAvoidToString();
    AbsentFromInitial("toString");
    EntriesAvoidConstructor();
    AbsentFromInitial("constructor");
  }

  /** The two counterexamples on the registry as the process starts it. */
  lemma InitialTableCounterexamples()
    ensures LookupAsWritten(InitialModels(), "toString")
         == Success(Completion("Response from toString", "toString"))
    ensures DeleteAsWritten(InitialModels(), Some("constructor"))
         == Outcome(Success(Message("Model 'constructor' removed")), InitialModels())
  {
    InitialLacksInheritedNames();
    ToStringAnswers(InitialModels());
    ConstructorRemoved(InitialModels());
  }
}
