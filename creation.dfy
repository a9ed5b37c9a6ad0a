/** `Model.create(opts)`: shape a fresh document straight from an option bag,
    stamp it with a new id and the model name, and store it. */
module Creation {
  import opened Values
  import opened Errors
  import opened Schemas
  import opened Keys
  import opened Construction

  /** What `create`'s loop does for one field: a truthy `default` is called
      and wins; otherwise a truthy `required` turns a ref option into a
      pointer record (a TypeError when the option is null or undefined) and
      copies any other option, or throws MissingProperty; otherwise the field
      is left out. */
  function CreateStep(name: string, f: Field, opts: Doc, supply: string -> Value): Step {
    if Truthy(f.desc.default) then
      if f.desc.default.Fn? then Put(supply(f.key))
      else Throw(TypeError(DefaultNotCallable(f.key)))
    else if Truthy(f.desc.required) then
      if IsRef(f.desc) then
        if Nullish(Lookup(opts, f.key)) then Throw(TypeError(RefIsNullish(f.key)))
        else Put(Pointer(Lookup(opts, f.key)))
      else if !Nullish(Lookup(opts, f.key)) then Put(Lookup(opts, f.key))
      else Throw(Custom(MissingProperty(name, f.key)))
    else Skip
  }

  function CreateSteps(m: ModelType, opts: Doc, supply: string -> Value): seq<Step> {
    seq(|m.schema|, i requires 0 <= i < |m.schema| => CreateStep(m.name, m.schema[i], opts, supply))
  }

  /** The document `create` upserts, with `freshId` the identifier `uuid()`
      returns on this call, or what it rejects with. */
  function CreateBody(m: ModelType, opts: Doc, supply: string -> Value, freshId: string): Result<Doc> {
    match Assemble(map[], m.schema, CreateSteps(m, opts, supply))
    case Err(e) => Err(e)
    case Ok(d) => Ok(d["_id" := Str(freshId)]["_type" := Str(m.name)])
  }

  /** The loop of `create` that fills `newModel` key by key. */
  method ResolveCreateLoop(m: ModelType, opts: Doc, supply: string -> Value)
    returns (r: Result<Doc>)
    ensures r == Assemble(map[], m.schema, CreateSteps(m, opts, supply))
  {
    ghost var steps := CreateSteps(m, opts, supply);
    var newModel: Doc := map[];
    var i := 0;
    while i < |m.schema|
      invariant 0 <= i <= |m.schema|
      invariant Assemble(map[], m.schema[..i], steps[..i]) == Ok(newModel)
    {
      var key, desc := m.schema[i].key, m.schema[i].desc;
      AssembleNext(map[], m.schema, steps, i, newModel);
      assert steps[i] == CreateStep(m.name, m.schema[i], opts, supply);
      if Truthy(desc.default) {
        if !desc.default.Fn? {
          AssembleStops(map[], m.schema, steps, i + 1);
          return Err(TypeError(DefaultNotCallable(key)));
        }
        newModel := newModel[key := supply(key)];
      } else if Truthy(desc.required) {
        var v := Lookup(opts, key);
        if desc.kind == Str("ref") {
          if Nullish(v) {
            AssembleStops(map[], m.schema, steps, i + 1);
            return Err(TypeError(RefIsNullish(key)));
          }
          newModel := newModel[key := Obj(map["$ref" := Get(v, "_id"), "type" := Get(v, "_type")])];
        } else if !Nullish(v) {
          newModel := newModel[key := v];
        } else {
          AssembleStops(map[], m.schema, steps, i + 1);
          return Err(Custom(MissingProperty(m.name, key)));
        }
      }
      i := i + 1;
    }
    assert m.schema[..i] == m.schema && steps[..i] == steps;
    r := Ok(newModel);
  }

  /** `create`'s loop, then the stamping of `_id` and `_type`. */
  method ResolveCreateBody(m: ModelType, opts: Doc, supply: string -> Value, freshId: string)
    returns (r: Result<Doc>)
    ensures r == CreateBody(m, opts, supply, freshId)
  {
    var newModel := ResolveCreateLoop(m, opts, supply);
    if newModel.Err? {
      return Err(newModel.error);
    }
    r := Ok(newModel.value["_id" := Str(freshId)]["_type" := Str(m.name)]);
  }

  /** `create` accepts exactly the option bags the constructor accepts. */
  lemma CreateSucceeds(m: ModelType, opts: Doc, supply: string -> Value, freshId: string)
    ensures CreateBody(m, opts, supply, freshId).Ok? <==>
              forall i :: 0 <= i < |m.schema| ==> ConstructAccepts(m.schema[i], opts)
    ensures CreateBody(m, opts, supply, freshId).Ok? <==> Construct(m, opts, supply).Ok?
  {
    var steps := CreateSteps(m, opts, supply);
    AssembleSucceeds(map[], m.schema, steps);
    assert forall i :: 0 <= i < |m.schema| ==> (steps[i].Throw? <==> !ConstructAccepts(m.schema[i], opts));
    ConstructSucceeds(m, opts, supply);
  }

  /** `create` rejects for the first field it does not accept: a TypeError
      for a default that is not a function or a required ref option without
      value, MissingProperty naming the model and field otherwise. */
  lemma CreateFailsAt(m: ModelType, opts: Doc, supply: string -> Value, freshId: string, i: nat)
    requires i < |m.schema| && !ConstructAccepts(m.schema[i], opts)
    requires forall j :: 0 <= j < i ==> ConstructAccepts(m.schema[j], opts)
    ensures CreateBody(m, opts, supply, freshId) ==
              if Truthy(m.schema[i].desc.default) then Err(TypeError(DefaultNotCallable(m.schema[i].key)))
              else if IsRef(m.schema[i].desc) then Err(TypeError(RefIsNullish(m.schema[i].key)))
              else Err(Custom(MissingProperty(m.name, m.schema[i].key)))
  {
    var steps := CreateSteps(m, opts, supply);
    assert NoThrow(steps[..i]) by {
      assert forall j :: 0 <= j < i ==> steps[..i][j] == steps[j];
    }
    AssembleFirstThrow(map[], m.schema, steps, i);
  }

  /** What the created document holds under a schema key other than `_id`
      and `_type`: the default's value when the default is truthy, whatever
      `opts` says; for a required field without default, the pointer record
      of a ref option or the option itself; and nothing for an optional
      field without default, ref or not. */
  lemma CreateField(m: ModelType, opts: Doc, supply: string -> Value, freshId: string, i: nat)
    requires CreateBody(m, opts, supply, freshId).Ok?
    requires i < |m.schema| && m.schema[i].key != "_id" && m.schema[i].key != "_type"
    ensures var b, f, v := CreateBody(m, opts, supply, freshId).value, m.schema[i], Lookup(opts, m.schema[i].key);
      && (Truthy(f.desc.default) ==> f.key in b && b[f.key] == supply(f.key))
      && (!Truthy(f.desc.default) && Truthy(f.desc.required) && IsRef(f.desc) ==>
            !Nullish(v) && f.key in b && b[f.key] == Pointer(v))
      && (!Truthy(f.desc.default) && Truthy(f.desc.required) && !IsRef(f.desc) ==>
            !Nullish(v) && f.key in b && b[f.key] == v)
      && (!Truthy(f.desc.default) && !Truthy(f.desc.required) ==> f.key !in b)
  {
    var steps := CreateSteps(m, opts, supply);
    AssembleSucceeds(map[], m.schema, steps);
    if steps[i].Put? {
      AssemblePut(map[], m.schema, steps, i);
    } else {
      AssembleUntouched(map[], m.schema, steps, m.schema[i].key);
    }
  }

  /** The created document holds the fields with a truthy default or a
      truthy `required`, plus `_id` and `_type`; no other key. */
  lemma CreateKeys(m: ModelType, opts: Doc, supply: string -> Value, freshId: string)
    requires CreateBody(m, opts, supply, freshId).Ok?
    ensures CreateBody(m, opts, supply, freshId).value.Keys ==
              {"_id", "_type"} +
              set i | 0 <= i < |m.schema| && (Truthy(m.schema[i].desc.default) || Truthy(m.schema[i].desc.required))
                :: m.schema[i].key
  {
    var steps := CreateSteps(m, opts, supply);
    AssembleSucceeds(map[], m.schema, steps);
    AssembleKeys(map[], m.schema, steps);
    assert PutKeys(m.schema, steps) ==
             set i | 0 <= i < |m.schema| && (Truthy(m.schema[i].desc.default) || Truthy(m.schema[i].desc.required))
               :: m.schema[i].key;
  }

  /** The created document's `_id` is the fresh id and its `_type` the model
      name, whatever `opts` or the schema say, and its own `_type` and `_id`
      rebuild the key it is stored under. */
  lemma CreateReserved(m: ModelType, opts: Doc, supply: string -> Value, freshId: string)
    requires CreateBody(m, opts, supply, freshId).Ok?
    ensures var b := CreateBody(m, opts, supply, freshId).value;
      && "_id" in b && b["_id"] == Str(freshId)
      && "_type" in b && b["_type"] == Str(m.name)
      && CompositeKey(b["_type"], b["_id"]) == m.name + ":" + freshId
  {
  }

  /** Where no required field without default is a ref, `create` stores what
      the constructor would have set under every key but `_id` and `_type`. */
  lemma CreateAgreesWithConstruct(m: ModelType, opts: Doc, supply: string -> Value, freshId: string)
    requires forall i :: 0 <= i < |m.schema| && IsRef(m.schema[i].desc) ==>
               Truthy(m.schema[i].desc.default) || !Truthy(m.schema[i].desc.required)
    requires CreateBody(m, opts, supply, freshId).Ok?
    ensures Construct(m, opts, supply).Ok?
    ensures forall k :: k != "_id" && k != "_type" ==>
              Lookup(CreateBody(m, opts, supply, freshId).value, k) == Lookup(Construct(m, opts, supply).value, k)
  {
    assert CreateSteps(m, opts, supply) == ConstructSteps(m, opts, supply);
  }
}
