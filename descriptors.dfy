/** The entities of the model registry: the stored model descriptors, the
    parsed POST body, and the registry invariant every handler keeps. */
module Descriptors {

  datatype Option<+T> = None | Some(value: T)

  /** A stored attribute that no handler reads: api_type, base_url,
      api_key_env, model_name, max_context, strengths, cost_per_1k_tokens,
      priority, and whatever else a POST body carries. Numbers are kept as
      exact reals; nothing computes with them. */
  datatype Value = Flag(b: bool) | Number(x: real) | Text(s: string) | Texts(items: seq<string>)

  /** One registry entry. The handlers read `id`, `name`, `provider` and
      `is_chinese`; `is_available` is written by the add branch; the other
      fields are carried along in `attributes`. */
  datatype Descriptor = Descriptor(
    id: string,
    name: string,
    provider: string,
    isChinese: bool,
    isAvailable: bool,
    attributes: map<string, Value>)

  /** The JSON body of a POST request. A string field that is missing, null
      or empty is "" here: all three are falsy in JavaScript, which is all
      the handler looks at. `isChinese` is the truthiness of `is_chinese`.
      `attributes` holds every other field of the body; a key of
      `NamedFields` in it is ignored. */
  datatype PostBody = PostBody(
    id: string,
    name: string,
    provider: string,
    isChinese: bool,
    modelId: string,
    prompt: string,
    attributes: map<string, Value>)

  /** The registry as a JavaScript object: model id to descriptor. */
  type Models = map<string, Descriptor>

  /** The JavaScript fields a descriptor or a POST body keeps outside its
      `attributes`. */
  const NamedFields: set<string> :=
    {"id", "name", "provider", "is_chinese", "is_available", "model_id", "prompt"}

  /** A descriptor as the registry invariant wants it under key `k`: filed
      under its own non-empty id, with a name and a provider, and marked
      available. */
  predicate Keyed(k: string, d: Descriptor)
  {
    k != "" && d.id == k && d.name != "" && d.provider != "" && d.isAvailable
  }

  /** The registry invariant: every entry is keyed as above. The literal
      table has it, and adding and deleting keep it. */
  ghost predicate WellFormed(m: Models)
  {
    forall k :: k in m ==> Keyed(k, m[k])
  }
}
