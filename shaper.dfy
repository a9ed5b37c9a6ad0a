/** The `ClayShaper` object: its schema registry, the model types it hands
    out, and the instances and documents those models create and save. The
    database bucket is a map from composite key to stored document; an
    upsert is a map update and a get a lookup. */
module Kyatatsu {
  import opened Values
  import opened Errors
  import opened Schemas
  import opened Keys
  import opened Construction
  import opened Saving
  import opened Creation

  /** `model(name)` over a registry: the model type bound to the registered
      schema, or the ModelNotRegistered error. */
  function LookupModel(models: map<string, Schema>, name: string): Result<ModelType> {
    if name in models then Ok(ModelType(name, models[name]))
    else Err(Custom(ModelNotRegistered(name)))
  }

  /** Registering `name` replaces whatever was registered under it and leaves
      every other name as it was. */
  lemma RegisterThenLookup(models: map<string, Schema>, name: string, schema: Schema, other: string)
    ensures LookupModel(models[name := schema], name) == Ok(ModelType(name, schema))
    ensures other != name ==> LookupModel(models[name := schema], other) == LookupModel(models, other)
  {
  }

  /** Looking up a name fails exactly when it is not registered, and the
      error's message is `No model registered with name: <name>`. */
  lemma LookupFails(models: map<string, Schema>, name: string)
    ensures LookupModel(models, name).Err? <==> name !in models
    ensures LookupModel(models, name).Err? ==>
              LookupModel(models, name).error.Custom? &&
              Message(LookupModel(models, name).error.custom) == "No model registered with name: " + name
  {
  }

  class ClayShaper {
    /** `this.models`: model name to schema. */
    var models: map<string, Schema>
    /** The contents of the bucket: composite key to stored document. */
    var bucket: map<string, Doc>

    constructor (stored: map<string, Doc>)
      ensures models == map[] && bucket == stored
    {
      models := map[];
      bucket := stored;
    }

    /** `this.models[name] = schema` */
    method RegisterModel(name: string, schema: Schema)
      modifies this`models
      ensures models == old(models)[name := schema]
      ensures LookupModel(models, name) == Ok(ModelType(name, schema))
      ensures forall n :: n != name ==> LookupModel(models, n) == LookupModel(old(models), n)
    {
      models := models[name := schema];
    }

    /** `model(name)`: the model type, which keeps the schema registered at
        this moment, or the ModelNotRegistered error. */
    method Model(name: string) returns (r: Result<ModelType>)
      ensures r.Ok? <==> name in models
      ensures r.Ok? ==> r.value.name == name && r.value.schema == models[name]
      ensures r.Err? ==> r.error == Custom(ModelNotRegistered(name))
    {
      if name !in models {
        return Err(Custom(ModelNotRegistered(name)));
      }
      r := Ok(ModelType(name, models[name]));
    }

    /** `new Model(opts)`: an instance bound to this shaper whose properties
        the constructor's loop shaped from `opts`, or what that loop threw. */
    method New(m: ModelType, opts: Doc, supply: string -> Value) returns (r: Result<Instance>)
      ensures r.Ok? <==> Construct(m, opts, supply).Ok?
      ensures r.Err? ==> r.error == Construct(m, opts, supply).error
      ensures r.Ok? ==> fresh(r.value) && r.value.shaper == this && r.value.model == m &&
                        r.value.props == Construct(m, opts, supply).value
    {
      var props := ResolveConstruct(m, opts, supply);
      if props.Err? {
        return Err(props.error);
      }
      var instance := new Instance(this, m, props.value);
      r := Ok(instance);
    }

    /** `bucket.upsert(key, doc)`: create or replace the document. */
    method Upsert(key: string, doc: Doc)
      modifies this`bucket
      ensures bucket == old(bucket)[key := doc]
    {
      bucket := bucket[key := doc];
    }

    /** `Model.create(opts)`: shape the document, upsert it under
        `name:freshId`, and resolve with what a get of that key returns. A
        rejected shaping writes nothing. */
    method Create(m: ModelType, opts: Doc, supply: string -> Value, freshId: string) returns (r: Result<Doc>)
      modifies this`bucket
      ensures CreateBody(m, opts, supply, freshId).Err? ==>
                r == CreateBody(m, opts, supply, freshId) && bucket == old(bucket)
      ensures CreateBody(m, opts, supply, freshId).Ok? ==>
                && bucket == old(bucket)[m.name + ":" + freshId := CreateBody(m, opts, supply, freshId).value]
                && r == Ok(bucket[m.name + ":" + freshId])
                && r == CreateBody(m, opts, supply, freshId)
    {
      var body := ResolveCreateBody(m, opts, supply, freshId);
      if body.Err? {
        return body;
      }
      var key := m.name + ":" + freshId;
      Upsert(key, body.value);
      r := Ok(bucket[key]);
    }
  }

  /** An object built by a generated constructor. */
  class Instance {
    /** The shaper whose bucket `save` writes to. */
    const shaper: ClayShaper
    const model: ModelType
    /** The instance's own properties (other than the `save` method). */
    var props: Doc

    constructor (shaper: ClayShaper, model: ModelType, props: Doc)
      ensures this.shaper == shaper && this.model == model && this.props == props
    {
      this.shaper := shaper;
      this.model := model;
      this.props := props;
    }

    /** `save()`: stamp `_id` (with `freshId`) and `_type` where they are
        null, which stays done even if shaping then rejects; shape the
        document; upsert it under `_type:_id` and resolve with what a get of
        that key returns. A rejected shaping writes nothing. */
    method Save(freshId: string) returns (r: Result<Doc>)
      modifies this, shaper`bucket
      ensures props == Stamp(old(props), freshId, model.name)
      ensures SaveBody(model, props).Err? ==>
                r == SaveBody(model, props) && shaper.bucket == old(shaper.bucket)
      ensures SaveBody(model, props).Ok? ==>
                && var key := CompositeKey(Lookup(props, "_type"), Lookup(props, "_id"));
                && shaper.bucket == old(shaper.bucket)[key := SaveBody(model, props).value]
                && r == Ok(shaper.bucket[key])
                && r == SaveBody(model, props)
    {
      if Nullish(Lookup(props, "_id")) {
        props := props["_id" := Str(freshId)];
      }
      if Nullish(Lookup(props, "_type")) {
        props := props["_type" := Str(model.name)];
      }
      var key := CompositeKey(Lookup(props, "_type"), Lookup(props, "_id"));
      var update := ResolveSaveBody(model, props);
      if update.Err? {
        return update;
      }
      shaper.Upsert(key, update.value);
      r := Ok(shaper.bucket[key]);
    }
  }
}
