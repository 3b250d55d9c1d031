/** `NoiseModel`: a dictionary from conditions to noise functions, together with
    keyword metadata, and the operations that build new models from old ones. */
module NoiseModels {
  import opened Common

  /** A noise model over conditions `C`, noise functions `N` and metadata values `M`.
      `__init__` stores the dictionary and the keyword arguments as given. */
  datatype NoiseModel<C, N, M> = NoiseModel(model: map<C, N>, metadata: map<string, M>)

  /** `NoiseModel(model, **kwargs)` followed by the `model` and `metadata` properties:
      the properties return exactly what the constructor was given. */
  lemma Accessors<C, N, M>(model: map<C, N>, kwargs: map<string, M>)
    ensures NoiseModel(model, kwargs).model == model
    ensures NoiseModel(model, kwargs).metadata == kwargs
  {
  }

  /** The right operand of `-`: another noise model, or any collection of conditions
      (only membership is asked of it). */
  datatype Subtrahend<C, N, M> = Keys(keys: set<C>) | Model(other: NoiseModel<C, N, M>)

  /** The entries of `m` whose key is not in `ks`. */
  function Without<K, V>(m: map<K, V>, ks: set<K>): (r: map<K, V>)
    ensures r.Keys == m.Keys - ks
    ensures forall k :: k in r ==> r[k] == m[k]
  {
    map k | k in m && k !in ks :: m[k]
  }

  /** `__sub__`: removing a key collection keeps the metadata; removing a noise model
      also removes its metadata keys. */
  function Sub<C, N, M>(nm: NoiseModel<C, N, M>, data: Subtrahend<C, N, M>): (r: NoiseModel<C, N, M>)
    ensures data.Keys? ==> r.model.Keys == nm.model.Keys - data.keys && r.metadata == nm.metadata
    ensures data.Model? ==>
      && r.model.Keys == nm.model.Keys - data.other.model.Keys
      && r.metadata.Keys == nm.metadata.Keys - data.other.metadata.Keys
    ensures forall k :: k in r.model ==> r.model[k] == nm.model[k]
    ensures forall k :: k in r.metadata ==> r.metadata[k] == nm.metadata[k]
  {
    match data
    case Keys(ks) => NoiseModel(Without(nm.model, ks), nm.metadata)
    case Model(other) => NoiseModel(Without(nm.model, other.model.Keys), Without(nm.metadata, other.metadata.Keys))
  }

  /** Subtraction never adds a key or changes a value: the result's model is a
      sub-map of the original. */
  lemma SubIsSubmap<C, N, M>(nm: NoiseModel<C, N, M>, data: Subtrahend<C, N, M>)
    ensures Sub(nm, data).model.Keys <= nm.model.Keys
    ensures Sub(nm, data).metadata.Keys <= nm.metadata.Keys
    ensures forall k :: k in Sub(nm, data).model ==> Sub(nm, data).model[k] == nm.model[k]
  {
  }

  /** A model minus itself is empty, metadata included. */
  lemma SubSelf<C, N, M>(nm: NoiseModel<C, N, M>)
    ensures Sub(nm, Model(nm)) == NoiseModel(map[], map[])
  {
    var r := Sub(nm, Model(nm));
    assert r.model.Keys == {};
    assert r.metadata.Keys == {};
  }

  /** A key in the subtracted collection is gone, and any other key keeps its entry. */
  lemma SubKeys<C, N, M>(nm: NoiseModel<C, N, M>, ks: set<C>, k: C)
    ensures k in ks ==> k !in Sub(nm, Keys(ks)).model
    ensures k in nm.model && k !in ks ==> k in Sub(nm, Keys(ks)).model && Sub(nm, Keys(ks)).model[k] == nm.model[k]
  {
  }

  /** The right operand of `+`: another noise model, or a plain dictionary. */
  datatype Addend<C, N, M> = Dict(entries: map<C, N>) | Other(other: NoiseModel<C, N, M>)

  const DictAddMessage := "unsupported operand type(s) for +: 'dict' and 'dict'"

  /** `__add__` as written: it applies `+` to two dictionaries, which Python rejects,
      so every addition raises. */
  function AddAsWritten<C, N, M>(nm: NoiseModel<C, N, M>, data: Addend<C, N, M>): (r: Result<NoiseModel<C, N, M>>)
    ensures r == Failure(TypeError(DictAddMessage))
  {
    Failure(TypeError(DictAddMessage))
  }

  /** The usage the class documents, `noise_model += {c3: n3}`, raises with the code as
      written instead of giving the extended model. */
  lemma DocumentedUsageFails<C, N, M>(nm: NoiseModel<C, N, M>, extra: map<C, N>)
    ensures AddAsWritten(nm, Dict(extra)).Failure?
    ensures AddAsWritten(nm, Dict(extra)) != Success(Add(nm, Dict(extra)))
  {
  }

  /** `__add__` as intended: the union of the dictionaries, entries on the right
      overriding those on the left, as Python's `|` does; a plain dictionary keeps the
      metadata. */
  function Add<C, N, M>(nm: NoiseModel<C, N, M>, data: Addend<C, N, M>): (r: NoiseModel<C, N, M>)
    ensures data.Dict? ==> r.model.Keys == nm.model.Keys + data.entries.Keys && r.metadata == nm.metadata
    ensures data.Other? ==>
      && r.model.Keys == nm.model.Keys + data.other.model.Keys
      && r.metadata.Keys == nm.metadata.Keys + data.other.metadata.Keys
  {
    match data
    case Dict(entries) => NoiseModel(nm.model + entries, nm.metadata)
    case Other(other) => NoiseModel(nm.model + other.model, nm.metadata + other.metadata)
  }

  /** Adding keeps every added entry, and every original entry the right operand does
      not override. */
  lemma AddEntries<C, N, M>(nm: NoiseModel<C, N, M>, extra: map<C, N>, k: C)
    ensures k in extra ==> Add(nm, Dict(extra)).model[k] == extra[k]
    ensures k in nm.model && k !in extra ==> Add(nm, Dict(extra)).model[k] == nm.model[k]
  {
  }

  /** Adding a dictionary and then subtracting its keys gives back the entries of the
      original model that it did not override. */
  lemma AddThenSub<C, N, M>(nm: NoiseModel<C, N, M>, extra: map<C, N>)
    ensures Sub(Add(nm, Dict(extra)), Keys(extra.Keys)) == NoiseModel(Without(nm.model, extra.Keys), nm.metadata)
  {
  }

  /** `__radd__` as written: it delegates to `__add__` as written, so it raises too. */
  function RaddAsWritten<C, N, M>(nm: NoiseModel<C, N, M>, data: Addend<C, N, M>): (r: Result<NoiseModel<C, N, M>>)
    ensures r == Failure(TypeError(DictAddMessage))
  {
    AddAsWritten(nm, data)
  }

  /** `__radd__` with the intended `__add__`: the same as `Add` with the operands in
      the same order. */
  function Radd<C, N, M>(nm: NoiseModel<C, N, M>, data: Addend<C, N, M>): (r: NoiseModel<C, N, M>)
    ensures r == Add(nm, data)
  {
    Add(nm, data)
  }
}
